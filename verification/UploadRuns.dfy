/**
 Runs of the store path: the upload queue, the threads that store into it, the
 workers that send from it, the disk entry each key may have, and S3 as the map
 an upload writes. Every step is one critical section of the daemon, or one
 effect outside its lock.
 */
module UploadRuns {
  import opened Common
  import opened UploadQueueModel

  const MAX_ATTEMPTS := 3

  /** What the newest accepted store of a key is: bytes in memory, or whatever its disk entry has held since. */
  datatype Source = Memory(bytes: string) | Disk(seen: set<string>)

  /**
   An upload in progress, of the store with the given arrival number. `value`
   is what is sent; a disk upload has none until it is read.
   */
  datatype Flight = Flight(item: Item, sync: bool, arrival: nat, value: Option<string>, landed: bool)

  /** A store refused by the full queue: its thread waits, then uploads by itself unless it is overtaken. */
  datatype Put = Put(key: Key, bytes: string, arrival: nat, refusal: Option<nat>)

  /** The store of a key that arrived last, and its thread if it was refused. */
  datatype Newest = Newest(arrival: nat, put: Option<nat>)

  /**
   Who came when. Stores are numbered as they reach the queue. Per key: the
   number of the newest accepted store, of the store whose upload last landed
   in S3, of the store that arrived last, and of the newest accepted one that
   went to disk, which is the one a marker stands for. Of the refused stores:
   the numbers of those whose thread a crash ended.
   */
  datatype History = History(
    arrivals: nat, stamp: map<Key, nat>, sentBy: map<Key, nat>, newest: map<Key, Newest>,
    filed: map<Key, nat>, killed: set<nat>)

  datatype Counters = Counters(queued: nat, done: nat, failed: nat, skipped: nat)

  datatype Sys = Sys(
    q: Queue,
    flights: map<nat, Flight>,
    puts: map<nat, Put>,
    disk: map<Key, string>,
    s3: map<Key, string>,
    counters: Counters,
    // History: the newest accepted store per key, the refused store that took
    // a key over, keys whose newest store was given up, markers a crash left,
    // keys whose newest accepted store a crash has put out of reach.
    latest: map<Key, Source>,
    takenOver: map<Key, nat>,
    abandoned: set<Key>,
    unrecovered: set<Key>,
    lost: set<Key>,
    h: History)

  function Init(maxHeldBytes: nat): Sys {
    Sys(Empty(maxHeldBytes, {}), map[], map[], map[], map[], Counters(0, 0, 0, 0), map[], map[], {}, {}, {},
        History(0, map[], map[], map[], map[], {}))
  }

  datatype Step =
    | DiskWrite(key: Key, bytes: string)
    | DiskEvict(key: Key)
    | StoreDisk(key: Key)
    | StoreMemory(put: nat, key: Key, blob: Blob)
    | Resume(put: nat)
    | Take(now: int)
    | Load(flight: nat)
    | Send(flight: nat, landed: bool, reported: bool)
    | Retire(flight: nat, retryAt: int)
    | Crash
    | Recover(key: Key)

  // ---- the steps -------------------------------------------------------------------

  /** A store of `k` arrives. */
  function Arrive(h: History, k: Key, put: Option<nat>): History {
    h.(arrivals := h.arrivals + 1, newest := h.newest[k := Newest(h.arrivals, put)])
  }

  /** The newest accepted store of `k` is now the one that arrived as `arrival`, and nothing older is owed. */
  function Accepted(s: Sys, k: Key, src: Source, arrival: nat): Sys {
    s.(latest := s.latest[k := src], takenOver := s.takenOver - {k},
       abandoned := s.abandoned - {k}, lost := s.lost - {k},
       h := s.h.(stamp := s.h.stamp[k := arrival],
                 filed := if src.Disk? then s.h.filed[k := arrival] else s.h.filed))
  }

  function OnDisk(s: Sys, k: Key): Source {
    Disk(if k in s.disk then {s.disk[k]} else {})
  }

  /** An accepted store. One that starts a new wait is one more queued upload. */
  function AcceptStore(s: Sys, k: Key, blob: Option<Blob>, journal: bool, src: Source): Sys {
    var added := k !in s.q.waiting && k !in s.q.inFlight;
    Accepted(s.(q := Accept(s.q, k, blob, journal),
                counters := s.counters.(queued := s.counters.queued + if added then 1 else 0),
                h := Arrive(s.h, k, None)),
             k, src, s.h.arrivals)
  }

  /**
   A marker that a crash left is queued again, to be read from disk. Nothing
   arrives: what is queued is the store that the marker stands for.
   */
  function RecoverStore(s: Sys, k: Key): Sys {
    var added := k !in s.q.waiting && k !in s.q.inFlight;
    s.(q := Accept(s.q, k, None, false),
       counters := s.counters.(queued := s.counters.queued + if added then 1 else 0),
       unrecovered := s.unrecovered - {k})
  }

  /** A refused store. It takes over whatever was queued or being sent for its key. */
  function RefuseStore(s: Sys, p: nat, k: Key, bytes: string): Sys {
    var flying, waiting := k in s.q.inFlight, k in s.q.waiting;
    s.(q := Refuse(s.q, k),
       puts := s.puts[p := Put(k, bytes, s.h.arrivals, if flying then Some(s.q.nextRefusal) else None)],
       h := Arrive(s.h, k, Some(p)),
       takenOver := if flying || waiting || k in s.q.ledger.held then s.takenOver[k := p] else s.takenOver,
       counters := s.counters.(skipped := s.counters.skipped + if !flying && waiting then 1 else 0))
  }

  /** The store's refusal record is dropped; true when something newer overtook the store. */
  function TakeBack(s: Sys, p: nat): (Sys, bool)
    requires p in s.puts
  {
    var put := s.puts[p];
    if put.refusal.None? then (s, false)
    else
      var (q, overtaken) := TakeRefusal(s.q, put.refusal.value);
      (s.(q := q, puts := s.puts[p := put.(refusal := None)]), overtaken)
  }

  /** A store of the same key that arrived later has been accepted since. */
  predicate Stale(s: Sys, p: nat)
    requires p in s.puts
  {
    s.puts[p].key in s.h.stamp && s.h.stamp[s.puts[p].key] > s.puts[p].arrival
  }

  /** The key is free: the refused store uploads its value itself. */
  function Launch(s: Sys, p: nat): Sys
    requires p in s.puts
  {
    var Put(k, bytes, arrival, _) := s.puts[p];
    var (q, gen) := BeginSync(s.q, k);
    var flight := Flight(Item(k, None, gen, 0, 0), true, arrival, Some(bytes), false);
    s.(q := q, flights := s.flights[s.q.nextFlight := flight], puts := s.puts - {p},
       counters := s.counters.(queued := s.counters.queued + 1))
  }

  /** It is then the newest accepted store, unless it is stale. */
  function StartSync(s: Sys, p: nat): Sys
    requires p in s.puts
  {
    if Stale(s, p) then Launch(s, p)
    else Accepted(Launch(s, p), s.puts[p].key, Memory(s.puts[p].bytes), s.puts[p].arrival)
  }

  /** The key is being sent: the refused store waits for that flight and tries again. */
  function Watch(s: Sys, p: nat): Sys
    requires p in s.puts
  {
    var (q, id) := WatchFlight(s.q, s.puts[p].key);
    s.(q := q, puts := s.puts[p := s.puts[p].(refusal := Some(id))])
  }

  function ResumePut(s: Sys, p: nat): Sys
    requires p in s.puts
  {
    var (s1, overtaken) := TakeBack(s, p);
    if overtaken then s1.(puts := s1.puts - {p})
    else if s1.puts[p].key in s1.q.inFlight then Watch(s1, p)
    else StartSync(s1, p)
  }

  /** The store a queued item is of: one without a value is the one on disk, one with a value the newest accepted. */
  function ArrivalOf(h: History, item: Item): nat {
    var arrivals := if item.blob.None? then h.filed else h.stamp;
    if item.key in arrivals then arrivals[item.key] else 0
  }

  function TakeNext(s: Sys, now: int): Sys {
    var (q, taken) := TakeReady(s.q, now);
    match taken
    case None => s
    case Some(item) =>
      var value := if item.blob.Some? then Some(item.blob.value.bytes) else None;
      s.(q := q, flights := s.flights[s.q.nextFlight := Flight(item, false, ArrivalOf(s.h, item), value, false)])
  }

  function SendNow(s: Sys, f: nat, landed: bool, reported: bool): Sys
    requires f in s.flights && s.flights[f].value.Some?
  {
    var fl := s.flights[f];
    s.(s3 := if landed then s.s3[fl.item.key := fl.value.value] else s.s3,
       h := if landed then s.h.(sentBy := s.h.sentBy[fl.item.key := fl.arrival]) else s.h,
       flights := s.flights[f := fl.(landed := reported)])
  }

  /** A worker upload that failed and has attempts left. */
  predicate Retries(fl: Flight) {
    !fl.sync && fl.value.Some? && !fl.landed && fl.item.attempts + 1 < MAX_ATTEMPTS
  }

  function CountOutcome(c: Counters, fl: Flight): Counters {
    if fl.value.None? then c.(skipped := c.skipped + 1)
    else if fl.landed then c.(done := c.done + 1)
    else c.(failed := c.failed + 1)
  }

  function FinishFlight(s: Sys, f: nat, fl: Flight): Sys {
    var k := fl.item.key;
    var (q, requeued, count) := Finish(s.q, fl.item);
    var c := CountOutcome(s.counters, fl);
    var givenUp := !requeued && k !in s.q.superseded && !fl.landed;
    s.(q := q, flights := s.flights - {f},
       counters := c.(queued := c.queued + if count then 1 else 0),
       abandoned := if givenUp then s.abandoned + {k} else s.abandoned)
  }

  function RetryFlight(s: Sys, f: nat, fl: Flight, retryAt: int): Sys {
    var (q, dropped) := Requeue(s.q, fl.item.(attempts := fl.item.attempts + 1, notBefore := retryAt));
    s.(q := q, flights := s.flights - {f},
       counters := s.counters.(skipped := s.counters.skipped + if dropped then 1 else 0))
  }

  /**
   Whether a crash puts the newest accepted store of `k` out of reach: a marker
   stands for what is on disk, and without one nothing is sent again.
   */
  predicate AtRisk(s: Sys, k: Key) {
    k in s.latest && if k in s.q.journal then s.latest[k].Memory? else !Uploaded(s, k)
  }

  /** Everything in memory goes; the disk, S3 and the journal stay. */
  function AfterCrash(s: Sys): Sys {
    Sys(Empty(s.q.maxHeldBytes, s.q.journal), map[], map[], s.disk, s.s3, Counters(0, 0, 0, 0), s.latest, map[],
        s.abandoned, s.q.journal, s.lost + (set k | k in s.latest && AtRisk(s, k)),
        s.h.(killed := s.h.killed + set p | p in s.puts :: s.puts[p].arrival))
  }

  /** A daemon takes stores only when it has queued every marker it found. */
  predicate Enabled(s: Sys, step: Step) {
    match step
    case StoreDisk(_) => s.unrecovered == {}
    case StoreMemory(p, _, _) => p !in s.puts && s.unrecovered == {}
    case Resume(p) => p in s.puts
    case Load(f) => f in s.flights && s.flights[f].value.None?
    case Send(f, landed, reported) => f in s.flights && s.flights[f].value.Some? && (reported ==> landed)
    case Retire(f, _) => f in s.flights
    case Recover(k) => k in s.unrecovered
    case _ => true
  }

  function Next(s: Sys, step: Step): Sys
    requires Enabled(s, step)
  {
    match step
    case DiskWrite(k, v) =>
      s.(disk := s.disk[k := v],
         latest := if k in s.latest && s.latest[k].Disk?
                   then s.latest[k := Disk(s.latest[k].seen + {v})] else s.latest)
    case DiskEvict(k) => s.(disk := s.disk - {k})
    case StoreDisk(k) => AcceptStore(s, k, None, true, OnDisk(s, k))
    case StoreMemory(p, k, blob) =>
      if Refuses(s.q, k, Some(blob)) then RefuseStore(s, p, k, blob.bytes)
      else AcceptStore(s, k, Some(blob), false, Memory(blob.bytes))
    case Resume(p) => ResumePut(s, p)
    case Take(now) => TakeNext(s, now)
    case Load(f) => s.(flights := s.flights[f := s.flights[f].(value := Lookup(s.disk, s.flights[f].item.key))])
    case Send(f, landed, reported) => SendNow(s, f, landed, reported)
    case Retire(f, retryAt) =>
      if Retries(s.flights[f]) then RetryFlight(s, f, s.flights[f], retryAt) else FinishFlight(s, f, s.flights[f])
    case Crash => AfterCrash(s)
    case Recover(k) => RecoverStore(s, k)
  }

  // ---- what every run keeps --------------------------------------------------------

  predicate Carries(src: Source, v: string) {
    match src
    case Memory(bytes) => v == bytes
    case Disk(seen) => v in seen
  }

  /** S3 holds the newest accepted store of `k`, and holds it from that store's own upload. */
  predicate Uploaded(s: Sys, k: Key) {
    && k in s.latest && k in s.s3 && Carries(s.latest[k], s.s3[k])
    && k in s.h.stamp && k in s.h.sentBy && s.h.sentBy[k] == s.h.stamp[k]
  }

  predicate BlobIs(blob: Option<Blob>, src: Source) {
    match blob
    case None => src.Disk?
    case Some(b) => src == Memory(b.bytes)
  }

  /** Everything the system knows about one key. */
  datatype KeyView = KeyView(
    waiting: Option<Item>, gen: Option<nat>, flying: bool, flight: Option<Flight>, superseded: bool,
    recount: bool, held: Option<Blob>, marker: bool, latest: Option<Source>, stamp: Option<nat>, filed: Option<nat>,
    sent: Option<string>, sentBy: Option<nat>, disk: Option<string>,
    takenOver: bool, abandoned: bool, unrecovered: bool, lost: bool)

  function FlightOf(s: Sys, k: Key): Option<Flight> {
    if k in s.q.flightId then Lookup(s.flights, s.q.flightId[k]) else None
  }

  function View(s: Sys, k: Key): KeyView {
    KeyView(Lookup(s.q.waiting, k), Lookup(s.q.generation, k), k in s.q.inFlight, FlightOf(s, k),
            k in s.q.superseded, k in s.q.recount, Lookup(s.q.ledger.held, k), k in s.q.journal,
            Lookup(s.latest, k), Lookup(s.h.stamp, k), Lookup(s.h.filed, k),
            Lookup(s.s3, k), Lookup(s.h.sentBy, k), Lookup(s.disk, k),
            k in s.takenOver, k in s.abandoned, k in s.unrecovered, k in s.lost)
  }

  /**
   What the queue has for a key is its newest accepted store, or else that one is lost
   and the one on disk is sent.
   */
  predicate HeldOk(v: KeyView)
    requires v.latest.Some?
  {
    BlobIs(v.held, v.latest.value) || (v.lost && v.held.None? && v.filed.Some?)
  }

  /** A waiting item is at the current generation. */
  predicate WaitingOk(k: Key, v: KeyView) {
    v.waiting.Some? ==>
      && v.waiting.value.key == k
      && !v.flying
      && v.gen == Some(v.waiting.value.generation)
      && v.waiting.value.blob == v.held
      && v.latest.Some? && HeldOk(v)
  }

  /** A flight carries the newest accepted store, or the one on disk when that one is lost. */
  predicate CarriesOk(v: KeyView, f: Flight)
    requires v.latest.Some?
  {
    && Some(f.arrival) == (if f.sync || f.item.blob.Some? then v.stamp else v.filed)
    && (f.value.Some? && v.stamp == Some(f.arrival) ==> Carries(v.latest.value, f.value.value))
    && (f.sync ==> v.held.None? && f.value.Some?)
    && (!f.sync ==> v.held == f.item.blob && HeldOk(v))
  }

  /**
   A flight is of the current generation, or the newest accepted store is held and will
   go back, or a refused store took over.
   */
  predicate FlyingOk(k: Key, v: KeyView) {
    v.flying ==>
      && v.flight.Some? && v.flight.value.item.key == k
      && v.gen.Some? && v.latest.Some?
      && var f := v.flight.value;
      && f.item.generation <= v.gen.value
      && (f.landed ==> f.value.Some? && v.sent == f.value && v.sentBy == Some(f.arrival))
      && (f.value.None? ==> f.item.blob.None?)
      && (v.superseded ==> f.item.generation < v.gen.value && v.takenOver)
      && (!v.superseded && f.item.generation < v.gen.value ==> v.recount && BlobIs(v.held, v.latest.value))
      && (f.item.generation == v.gen.value ==> CarriesOk(v, f))
  }

  predicate Tracked(v: KeyView) {
    v.waiting.Some? || v.flying
  }

  /** A marker stands for a store that went to disk; it is the newest accepted one or an older one. */
  predicate FiledOk(v: KeyView) {
    && (v.marker ==> v.filed.Some?)
    && (v.filed.Some? ==> v.latest.Some? && v.stamp.Some?)
    && (v.latest.Some? && v.latest.value.Disk? ==> v.filed.Some? && v.filed == v.stamp)
    && (v.latest.Some? && v.latest.value.Memory? && v.filed.Some? ==> v.filed.value < v.stamp.value)
    && (v.latest.Some? && v.latest.value.Disk? && v.gen.Some? ==> v.marker)
    && (v.latest.Some? && v.latest.value.Disk? && v.disk.Some? ==> v.disk.value in v.latest.value.seen)
    && (v.unrecovered ==> v.marker && !Tracked(v) && (v.latest.value.Disk? || v.lost))
  }

  /** The newest accepted store of a key is on its way, in S3, given up, taken over, lost, or still journalled. */
  predicate KeyOk(k: Key, v: KeyView) {
    && WaitingOk(k, v)
    && FlyingOk(k, v)
    && (v.gen.Some? <==> Tracked(v))
    && (v.held.Some? ==> Tracked(v))
    && (v.superseded ==> v.flying)
    && (v.flight.Some? ==> v.flying)
    && (v.latest.Some? ==>
          || Tracked(v) || v.takenOver || v.abandoned || v.unrecovered || v.lost
          || (v.sent.Some? && Carries(v.latest.value, v.sent.value) && v.sentBy.Some? && v.sentBy == v.stamp))
    && (v.stamp.Some? <==> v.latest.Some?)
    && FiledOk(v)
  }

  ghost predicate KeysOk(s: Sys) {
    forall k: Key :: KeyOk(k, View(s, k))
  }

  /** The queue order lists each waiting key exactly once. */
  ghost predicate OrderOk(order: seq<Key>, waiting: map<Key, Item>) {
    && (forall k :: k in order <==> k in waiting)
    && Distinct(order)
  }

  ghost predicate Distinct(keys: seq<Key>) {
    forall i, j :: 0 <= i < j < |keys| ==> keys[i] != keys[j]
  }

  /** Each flight is the one its key is registered under. */
  ghost predicate FlightsIn(inFlight: set<Key>, flightId: map<Key, nat>, nextFlight: nat, flights: map<nat, Flight>) {
    && flightId.Keys == inFlight
    && (forall f :: f in flights ==>
          f < nextFlight && flights[f].item.key in flightId && flightId[flights[f].item.key] == f)
  }

  ghost predicate FlightsOk(s: Sys) {
    FlightsIn(s.q.inFlight, s.q.flightId, s.q.nextFlight, s.flights)
  }

  predicate RefusalLive(refusals: map<nat, Refusal>, put: Put) {
    put.refusal.Some? ==> put.refusal.value in refusals && !refusals[put.refusal.value].overtaken
  }

  /** Each refused store owns its refusal record. */
  ghost predicate PutsIn(refusals: map<nat, Refusal>, nextRefusal: nat, puts: map<nat, Put>) {
    && (forall id :: id in refusals ==> id < nextRefusal)
    && (forall p :: p in puts && puts[p].refusal.Some? ==>
          puts[p].refusal.value in refusals && refusals[puts[p].refusal.value].key == puts[p].key)
    && (forall p, p' :: p in puts && p' in puts && p != p' && puts[p].refusal.Some? ==>
          puts[p].refusal != puts[p'].refusal)
  }

  /** A key taken over has a refused store that nothing newer has overtaken. */
  ghost predicate TakenOverIn(refusals: map<nat, Refusal>, puts: map<nat, Put>, takenOver: map<Key, nat>) {
    forall k :: k in takenOver ==>
      takenOver[k] in puts && puts[takenOver[k]].key == k && RefusalLive(refusals, puts[takenOver[k]])
  }

  ghost predicate PutsOk(s: Sys) {
    PutsIn(s.q.refusals, s.q.nextRefusal, s.puts) && TakenOverIn(s.q.refusals, s.puts, s.takenOver)
  }

  /**
   The store that arrived last for a key was accepted, or was refused and
   nothing has overtaken it, or was refused and a crash ended its thread.
   */
  predicate NewestOk(h: History, puts: map<nat, Put>, refusals: map<nat, Refusal>, k: Key, n: Newest) {
    && n.arrival < h.arrivals
    && (k in h.stamp ==> h.stamp[k] <= n.arrival)
    && ((k in h.stamp && h.stamp[k] == n.arrival) || n.arrival in h.killed
        || (n.put.Some? && n.put.value in puts && puts[n.put.value].key == k && puts[n.put.value].arrival == n.arrival
            && RefusalLive(refusals, puts[n.put.value])))
  }

  ghost predicate ArrivalsIn(h: History, puts: map<nat, Put>, refusals: map<nat, Refusal>) {
    && h.stamp.Keys <= h.newest.Keys
    && (forall k :: k in h.newest ==> NewestOk(h, puts, refusals, k, h.newest[k]))
    && (forall p :: p in puts ==> puts[p].key in h.newest && puts[p].arrival <= h.newest[puts[p].key].arrival)
    && (forall p :: p in puts && puts[p].key in h.stamp ==> h.stamp[puts[p].key] != puts[p].arrival)
    && (forall p, p' :: p in puts && p' in puts && p != p' ==> puts[p].arrival != puts[p'].arrival)
  }

  ghost predicate ArrivalsOk(s: Sys) {
    ArrivalsIn(s.h, s.puts, s.q.refusals)
  }

  /** Every upload ever queued is finished, skipped, waiting or in flight. */
  ghost predicate ConservedIn(c: Counters, waiting: set<Key>, inFlight: set<Key>) {
    c.queued == c.done + c.failed + c.skipped + |waiting| + |inFlight|
  }

  ghost predicate Conserved(s: Sys) {
    ConservedIn(s.counters, s.q.waiting.Keys, s.q.inFlight)
  }

  /** No store is being taken while there are markers to queue. */
  predicate Quiet(s: Sys) {
    s.unrecovered != {} ==> s.puts == map[]
  }

  ghost predicate Inv(s: Sys) {
    && s.q.journalling
    && Quiet(s)
    && KeysOk(s)
    && OrderOk(s.q.order, s.q.waiting)
    && FlightsOk(s)
    && PutsOk(s)
    && ArrivalsOk(s)
    && Conserved(s)
  }

  // ---- each step keeps it ----------------------------------------------------------

  /** A step that changes what is known about one key only. */
  ghost predicate Touches(s: Sys, s': Sys, k: Key) {
    forall j: Key :: j != k ==> View(s', j) == View(s, j)
  }

  lemma KeysOkAfter(s: Sys, s': Sys, k: Key)
    requires KeysOk(s) && Touches(s, s', k) && KeyOk(k, View(s', k))
    ensures KeysOk(s')
  {
    forall j: Key ensures KeyOk(j, View(s', j)) {
      assert KeyOk(j, View(s, j));
    }
  }

  /** Another key's flight is another flight. */
  lemma FlightsApart(s: Sys, f: nat, j: Key)
    requires KeysOk(s) && FlightsOk(s)
    requires (f in s.flights && s.flights[f].item.key != j) || f == s.q.nextFlight
    ensures j in s.q.flightId ==> s.q.flightId[j] != f && s.q.flightId[j] in s.flights
  {
    assert KeyOk(j, View(s, j));
  }

  lemma {:induction false} WithoutKey(order: seq<Key>, k: Key)
    requires Distinct(order)
    ensures forall j :: j in Without(order, k) <==> j in order && j != k
    ensures Distinct(Without(order, k))
  {
    if order != [] {
      WithoutKey(order[1..], k);
      assert order[0] !in Without(order[1..], k);
    }
  }

  /** A step outside the queue keeps what is not about single keys. */
  lemma RestSame(s: Sys, s': Sys)
    requires Inv(s) && KeysOk(s') && s'.q == s.q && s'.flights == s.flights && s'.puts == s.puts
    requires s'.takenOver == s.takenOver && s'.counters == s.counters && s'.h == s.h && s'.unrecovered == s.unrecovered
    ensures Inv(s')
  {
  }

  function DiskView(v: KeyView, bytes: Option<string>): KeyView {
    v.(disk := bytes,
       latest := if bytes.Some? && v.latest.Some? && v.latest.value.Disk?
                 then Some(Disk(v.latest.value.seen + {bytes.value})) else v.latest)
  }

  lemma DiskViewOk(k: Key, v: KeyView, bytes: Option<string>)
    requires KeyOk(k, v)
    ensures KeyOk(k, DiskView(v, bytes))
  {
  }

  lemma DiskElsewhere(s: Sys, step: Step, j: Key)
    requires (step.DiskWrite? || step.DiskEvict?) && j != step.key
    ensures View(Next(s, step), j) == View(s, j)
  {
  }

  lemma DiskShows(s: Sys, step: Step)
    requires step.DiskWrite? || step.DiskEvict?
    ensures View(Next(s, step), step.key)
            == DiskView(View(s, step.key), if step.DiskWrite? then Some(step.bytes) else None)
  {
  }

  lemma DiskKeeps(s: Sys, step: Step)
    requires Inv(s) && (step.DiskWrite? || step.DiskEvict?)
    ensures Inv(Next(s, step))
  {
    var s' := Next(s, step);
    forall j: Key | j != step.key ensures View(s', j) == View(s, j) {
      DiskElsewhere(s, step, j);
    }
    DiskShows(s, step);
    DiskViewOk(step.key, View(s, step.key), if step.DiskWrite? then Some(step.bytes) else None);
    KeysOkAfter(s, s', step.key);
    RestSame(s, s');
  }

  function LoadedView(v: KeyView): KeyView
    requires v.flight.Some?
  {
    v.(flight := Some(v.flight.value.(value := v.disk)))
  }

  lemma LoadedViewOk(k: Key, v: KeyView)
    requires KeyOk(k, v) && v.flight.Some? && v.flight.value.value.None?
    ensures KeyOk(k, LoadedView(v))
  {
  }

  lemma LoadShows(s: Sys, f: nat)
    requires FlightsOk(s) && Enabled(s, Load(f))
    ensures var k := s.flights[f].item.key;
            View(s, k).flight == Some(s.flights[f]) && View(Next(s, Load(f)), k) == LoadedView(View(s, k))
  {
  }

  lemma LoadElsewhere(s: Sys, f: nat, j: Key)
    requires KeysOk(s) && FlightsOk(s) && Enabled(s, Load(f)) && j != s.flights[f].item.key
    ensures View(Next(s, Load(f)), j) == View(s, j)
  {
    FlightsApart(s, f, j);
  }

  lemma LoadKeeps(s: Sys, f: nat)
    requires Inv(s) && Enabled(s, Load(f))
    ensures Inv(Next(s, Load(f)))
  {
    var s', k := Next(s, Load(f)), s.flights[f].item.key;
    assert KeyOk(k, View(s, k));
    LoadShows(s, f);
    LoadedViewOk(k, View(s, k));
    forall j: Key | j != k ensures View(s', j) == View(s, j) {
      LoadElsewhere(s, f, j);
    }
    KeysOkAfter(s, s', k);
  }

  function SentView(v: KeyView, landed: bool, reported: bool): KeyView
    requires v.flight.Some? && v.flight.value.value.Some?
  {
    var f := v.flight.value;
    v.(sent := if landed then f.value else v.sent, sentBy := if landed then Some(f.arrival) else v.sentBy,
       flight := Some(f.(landed := reported)))
  }

  lemma SentViewOk(k: Key, v: KeyView, landed: bool, reported: bool)
    requires KeyOk(k, v) && v.flight.Some? && v.flight.value.value.Some? && (reported ==> landed)
    ensures KeyOk(k, SentView(v, landed, reported))
  {
  }

  lemma SendShows(s: Sys, f: nat, landed: bool, reported: bool)
    requires FlightsOk(s) && Enabled(s, Send(f, landed, reported))
    ensures var k := s.flights[f].item.key;
            && View(s, k).flight == Some(s.flights[f])
            && View(SendNow(s, f, landed, reported), k) == SentView(View(s, k), landed, reported)
  {
  }

  lemma SendElsewhere(s: Sys, f: nat, landed: bool, reported: bool, j: Key)
    requires KeysOk(s) && FlightsOk(s) && Enabled(s, Send(f, landed, reported)) && j != s.flights[f].item.key
    ensures View(SendNow(s, f, landed, reported), j) == View(s, j)
  {
    FlightsApart(s, f, j);
  }

  lemma SendKeeps(s: Sys, f: nat, landed: bool, reported: bool)
    requires Inv(s) && Enabled(s, Send(f, landed, reported))
    ensures Inv(SendNow(s, f, landed, reported))
  {
    var s', k := SendNow(s, f, landed, reported), s.flights[f].item.key;
    assert KeyOk(k, View(s, k));
    SendShows(s, f, landed, reported);
    SentViewOk(k, View(s, k), landed, reported);
    forall j: Key | j != k ensures View(s', j) == View(s, j) {
      SendElsewhere(s, f, landed, reported, j);
    }
    KeysOkAfter(s, s', k);
  }

  // An accepted store.

  predicate Acceptable(v: KeyView, blob: Option<Blob>, journal: bool, src: Source) {
    && BlobIs(blob, src) && (journal ==> src.Disk?)
    && (src.Disk? ==> (v.disk.Some? ==> v.disk.value in src.seen) && (journal || v.marker))
  }

  /** What queueing alone changes. */
  function QueuedView(k: Key, v: KeyView, blob: Option<Blob>, journal: bool): KeyView {
    var gen := (if v.gen.Some? then v.gen.value else 0) + 1;
    v.(gen := Some(gen),
       waiting := if v.flying then v.waiting
                  else if v.waiting.Some? then Some(v.waiting.value.(generation := gen, blob := blob))
                  else Some(Item(k, blob, gen, 0, 0)),
       superseded := false, recount := v.flying || v.recount, held := blob, marker := v.marker || journal)
  }

  function AcceptedView(k: Key, v: KeyView, blob: Option<Blob>, journal: bool, src: Source, arrival: nat): KeyView {
    QueuedView(k, v, blob, journal).(
      latest := Some(src), stamp := Some(arrival), filed := if src.Disk? then Some(arrival) else v.filed,
      takenOver := false, abandoned := false, lost := false)
  }

  lemma AcceptedViewOk(k: Key, v: KeyView, blob: Option<Blob>, journal: bool, src: Source, arrival: nat)
    requires KeyOk(k, v) && Acceptable(v, blob, journal, src) && !v.unrecovered
    requires v.stamp.Some? ==> v.stamp.value < arrival
    ensures KeyOk(k, AcceptedView(k, v, blob, journal, src, arrival))
  {
  }

  lemma HeldAfter(l: Ledger, k: Key, blob: Option<Blob>)
    ensures Lookup(Hold(l, k, blob).held, k) == blob
    ensures forall j: Key :: j != k ==> Lookup(Hold(l, k, blob).held, j) == Lookup(l.held, j)
  {
  }

  lemma AcceptShows(s: Sys, k: Key, blob: Option<Blob>, journal: bool, src: Source)
    requires s.q.journalling
    ensures View(AcceptStore(s, k, blob, journal, src), k)
            == AcceptedView(k, View(s, k), blob, journal, src, s.h.arrivals)
  {
    HeldAfter(s.q.ledger, k, blob);
  }

  /** What the queue alone knows about a key. */
  ghost predicate SameInQueue(q: Queue, q': Queue, j: Key) {
    && Lookup(q'.waiting, j) == Lookup(q.waiting, j) && Lookup(q'.generation, j) == Lookup(q.generation, j)
    && (j in q'.inFlight <==> j in q.inFlight) && Lookup(q'.flightId, j) == Lookup(q.flightId, j)
    && (j in q'.superseded <==> j in q.superseded) && (j in q'.recount <==> j in q.recount)
    && Lookup(q'.ledger.held, j) == Lookup(q.ledger.held, j) && (j in q'.journal <==> j in q.journal)
  }

  lemma AcceptSameInQueue(q: Queue, k: Key, blob: Option<Blob>, journal: bool, j: Key)
    requires j != k
    ensures SameInQueue(q, Accept(q, k, blob, journal), j)
  {
    HeldAfter(q.ledger, k, blob);
  }

  lemma SupersedeSameInQueue(q: Queue, k: Key, j: Key)
    requires j != k
    ensures SameInQueue(q, Supersede(q, k), j)
  {
    DroppedHeld(q.ledger, k);
  }

  lemma ForgetQueuedSameInQueue(q: Queue, k: Key, j: Key)
    requires j != k
    ensures SameInQueue(q, ForgetQueued(q, k), j)
  {
    DroppedHeld(q.ledger, k);
  }

  lemma RefuseSameInQueue(q: Queue, k: Key, j: Key)
    requires j != k
    ensures SameInQueue(q, Refuse(q, k), j)
  {
    SupersedeSameInQueue(q, k, j);
    ForgetQueuedSameInQueue(q, k, j);
  }

  lemma AcceptElsewhere(s: Sys, k: Key, blob: Option<Blob>, journal: bool, src: Source, j: Key)
    requires j != k
    ensures View(AcceptStore(s, k, blob, journal, src), j) == View(s, j)
  {
    AcceptSameInQueue(s.q, k, blob, journal, j);
  }

  lemma AcceptKeepsKeys(s: Sys, k: Key, blob: Option<Blob>, journal: bool, src: Source)
    requires Inv(s) && Acceptable(View(s, k), blob, journal, src) && k !in s.unrecovered
    ensures KeysOk(AcceptStore(s, k, blob, journal, src))
  {
    AcceptShows(s, k, blob, journal, src);
    forall j: Key | j != k ensures View(AcceptStore(s, k, blob, journal, src), j) == View(s, j) {
      AcceptElsewhere(s, k, blob, journal, src, j);
    }
    assert k in s.h.stamp ==> k in s.h.newest && NewestOk(s.h, s.puts, s.q.refusals, k, s.h.newest[k]);
    AcceptedViewOk(k, View(s, k), blob, journal, src, s.h.arrivals);
    KeysOkAfter(s, AcceptStore(s, k, blob, journal, src), k);
  }

  /** Accepting a store overtakes the key's refusals and no others. */
  lemma OvertakingKeepsPuts(refusals: map<nat, Refusal>, next: nat, puts: map<nat, Put>, takenOver: map<Key, nat>,
                            k: Key)
    requires PutsIn(refusals, next, puts) && TakenOverIn(refusals, puts, takenOver)
    ensures PutsIn(Overtaken(refusals, k), next, puts)
    ensures TakenOverIn(Overtaken(refusals, k), puts, takenOver - {k})
  {
  }

  lemma AcceptingKeepsArrivals(h: History, puts: map<nat, Put>, refusals: map<nat, Refusal>, next: nat, k: Key,
                               filed: map<Key, nat>)
    requires PutsIn(refusals, next, puts) && ArrivalsIn(h, puts, refusals)
    ensures var h' := Arrive(h, k, None);
            ArrivalsIn(h'.(stamp := h'.stamp[k := h.arrivals], filed := filed), puts, Overtaken(refusals, k))
  {
  }

  lemma AcceptKeepsArrivals(s: Sys, k: Key, blob: Option<Blob>, journal: bool, src: Source)
    requires PutsOk(s) && ArrivalsOk(s)
    ensures ArrivalsOk(AcceptStore(s, k, blob, journal, src))
  {
    AcceptingKeepsArrivals(s.h, s.puts, s.q.refusals, s.q.nextRefusal, k,
                           AcceptStore(s, k, blob, journal, src).h.filed);
    AcceptRefusals(s.q, k, blob, journal);
  }

  lemma AcceptRefusals(q: Queue, k: Key, blob: Option<Blob>, journal: bool)
    ensures var q' := Accept(q, k, blob, journal);
            q'.refusals == Overtaken(q.refusals, k) && q'.nextRefusal == q.nextRefusal
  {
  }

  lemma AcceptKeepsPuts(s: Sys, k: Key, blob: Option<Blob>, journal: bool, src: Source)
    requires Inv(s)
    ensures PutsOk(AcceptStore(s, k, blob, journal, src))
  {
    OvertakingKeepsPuts(s.q.refusals, s.q.nextRefusal, s.puts, s.takenOver, k);
    AcceptRefusals(s.q, k, blob, journal);
  }

  lemma AcceptKeepsOrder(q: Queue, k: Key, blob: Option<Blob>, journal: bool)
    requires OrderOk(q.order, q.waiting)
    ensures var q' := Accept(q, k, blob, journal);
            OrderOk(q'.order, q'.waiting) && q'.journalling == q.journalling
  {
  }

  lemma AcceptKeepsFlights(q: Queue, k: Key, blob: Option<Blob>, journal: bool)
    ensures var q' := Accept(q, k, blob, journal);
            && q'.inFlight == q.inFlight && q'.flightId == q.flightId && q'.nextFlight == q.nextFlight
            && q'.waiting.Keys == if k in q.inFlight then q.waiting.Keys else q.waiting.Keys + {k}
  {
  }

  lemma AcceptKeepsRest(s: Sys, k: Key, blob: Option<Blob>, journal: bool, src: Source)
    requires Inv(s)
    ensures var s' := AcceptStore(s, k, blob, journal, src);
            OrderOk(s'.q.order, s'.q.waiting) && FlightsOk(s') && Conserved(s') && s'.q.journalling
  {
    AcceptKeepsOrder(s.q, k, blob, journal);
    AcceptKeepsFlights(s.q, k, blob, journal);
  }

  lemma AcceptKeeps(s: Sys, k: Key, blob: Option<Blob>, journal: bool, src: Source)
    requires Inv(s) && Acceptable(View(s, k), blob, journal, src) && k !in s.unrecovered
    ensures Inv(AcceptStore(s, k, blob, journal, src))
  {
    AcceptKeepsKeys(s, k, blob, journal, src);
    AcceptKeepsPuts(s, k, blob, journal, src);
    AcceptKeepsArrivals(s, k, blob, journal, src);
    AcceptKeepsRest(s, k, blob, journal, src);
  }

  // A marker is queued again.

  function RecoveredView(k: Key, v: KeyView): KeyView { QueuedView(k, v, None, false).(unrecovered := false) }

  lemma RecoveredViewOk(k: Key, v: KeyView)
    requires KeyOk(k, v) && v.unrecovered
    ensures KeyOk(k, RecoveredView(k, v))
  {
  }

  lemma RecoverShows(s: Sys, k: Key)
    requires s.q.journalling
    ensures View(RecoverStore(s, k), k) == RecoveredView(k, View(s, k))
  {
    HeldAfter(s.q.ledger, k, None);
  }

  lemma RecoverElsewhere(s: Sys, k: Key, j: Key)
    requires j != k
    ensures View(RecoverStore(s, k), j) == View(s, j)
  {
    AcceptSameInQueue(s.q, k, None, false, j);
  }

  lemma RecoverKeepsPuts(s: Sys, k: Key)
    requires PutsOk(s) && ArrivalsOk(s) && s.puts == map[]
    ensures PutsOk(RecoverStore(s, k)) && ArrivalsOk(RecoverStore(s, k))
  {
    OvertakingKeepsPuts(s.q.refusals, s.q.nextRefusal, s.puts, s.takenOver, k);
    AcceptRefusals(s.q, k, None, false);
  }

  lemma RecoverKeepsRest(s: Sys, k: Key)
    requires Inv(s)
    ensures var s' := RecoverStore(s, k);
            OrderOk(s'.q.order, s'.q.waiting) && FlightsOk(s') && Conserved(s') && s'.q.journalling
  {
    AcceptKeepsOrder(s.q, k, None, false);
    AcceptKeepsFlights(s.q, k, None, false);
  }

  lemma RecoverKeeps(s: Sys, k: Key)
    requires Inv(s) && k in s.unrecovered
    ensures Inv(RecoverStore(s, k))
  {
    RecoverShows(s, k);
    forall j: Key | j != k ensures View(RecoverStore(s, k), j) == View(s, j) {
      RecoverElsewhere(s, k, j);
    }
    assert KeyOk(k, View(s, k));
    RecoveredViewOk(k, View(s, k));
    KeysOkAfter(s, RecoverStore(s, k), k);
    RecoverKeepsPuts(s, k);
    RecoverKeepsRest(s, k);
  }

  // A refused store.

  function RefusedView(v: KeyView): KeyView {
    if v.flying then
      v.(gen := Some((if v.gen.Some? then v.gen.value else 0) + 1), superseded := true, held := None, takenOver := true)
    else if v.waiting.Some? || v.held.Some? then
      v.(waiting := None, gen := None, held := None, marker := false, takenOver := true)
    else v
  }

  lemma RefusedViewOk(k: Key, v: KeyView)
    requires KeyOk(k, v)
    ensures KeyOk(k, RefusedView(v))
  {
  }

  lemma DroppedHeld(l: Ledger, k: Key)
    ensures Lookup(DropHeld(l, k).held, k) == None
    ensures forall j: Key :: j != k ==> Lookup(DropHeld(l, k).held, j) == Lookup(l.held, j)
  {
  }

  lemma SupersedeShows(q: Queue, k: Key)
    ensures var q' := Supersede(q, k);
            && q'.waiting == q.waiting && q'.inFlight == q.inFlight && q'.flightId == q.flightId
            && q'.recount == q.recount && q'.journal == q.journal && k in q'.superseded
            && Lookup(q'.generation, k) == Some(Generation(q, k) + 1) && Lookup(q'.ledger.held, k) == None
  {
    DroppedHeld(q.ledger, k);
  }

  lemma ForgetShows(q: Queue, k: Key)
    requires q.journalling
    ensures var q' := ForgetQueued(q, k);
            && q'.inFlight == q.inFlight && q'.flightId == q.flightId && q'.superseded == q.superseded
            && q'.recount == q.recount && k !in q'.journal && Lookup(q'.waiting, k) == None
            && Lookup(q'.generation, k) == None && Lookup(q'.ledger.held, k) == None
  {
    DroppedHeld(q.ledger, k);
  }

  lemma RefuseFlyingShows(s: Sys, p: nat, k: Key, bytes: string)
    requires k in s.q.inFlight
    ensures View(RefuseStore(s, p, k, bytes), k) == RefusedView(View(s, k))
  {
    SupersedeShows(s.q, k);
  }

  lemma RefuseIdleShows(s: Sys, p: nat, k: Key, bytes: string)
    requires s.q.journalling && k !in s.q.inFlight
    ensures View(RefuseStore(s, p, k, bytes), k) == RefusedView(View(s, k))
  {
    if k in s.q.waiting || k in s.q.ledger.held {
      ForgetShows(s.q, k);
    }
  }

  lemma RefuseShows(s: Sys, p: nat, k: Key, bytes: string)
    requires s.q.journalling
    ensures View(RefuseStore(s, p, k, bytes), k) == RefusedView(View(s, k))
  {
    if k in s.q.inFlight {
      RefuseFlyingShows(s, p, k, bytes);
    } else {
      RefuseIdleShows(s, p, k, bytes);
    }
  }

  lemma RefuseElsewhere(s: Sys, p: nat, k: Key, bytes: string, j: Key)
    requires j != k
    ensures View(RefuseStore(s, p, k, bytes), j) == View(s, j)
  {
    RefuseSameInQueue(s.q, k, j);
  }

  /** A refused store behind a flight gets a refusal of its own, and overtakes the older ones. */
  lemma SupersedingKeepsPuts(refusals: map<nat, Refusal>, next: nat, puts: map<nat, Put>, takenOver: map<Key, nat>,
                             put: Put, flight: nat, p: nat)
    requires put.refusal == Some(next) && PutsIn(refusals, next, puts)
    requires TakenOverIn(refusals, puts, takenOver) && p !in puts
    ensures var refusals' := Overtaken(refusals, put.key)[next := Refusal(put.key, flight, false)];
            var puts' := puts[p := put];
            PutsIn(refusals', next + 1, puts') && TakenOverIn(refusals', puts', takenOver[put.key := p])
  {
  }

  lemma IdlePutKeepsPuts(refusals: map<nat, Refusal>, next: nat, puts: map<nat, Put>, takenOver: map<Key, nat>,
                         put: Put, p: nat)
    requires put.refusal.None? && PutsIn(refusals, next, puts) && TakenOverIn(refusals, puts, takenOver) && p !in puts
    ensures var puts' := puts[p := put];
            && PutsIn(refusals, next, puts')
            && TakenOverIn(refusals, puts', takenOver) && TakenOverIn(refusals, puts', takenOver[put.key := p])
  {
  }

  lemma RefuseKeepsPuts(s: Sys, p: nat, k: Key, bytes: string)
    requires PutsOk(s) && p !in s.puts
    ensures PutsOk(RefuseStore(s, p, k, bytes))
  {
    if k in s.q.inFlight {
      var put := Put(k, bytes, s.h.arrivals, Some(s.q.nextRefusal));
      SupersedingKeepsPuts(s.q.refusals, s.q.nextRefusal, s.puts, s.takenOver, put, FlightId(s.q, k), p);
    } else {
      IdlePutKeepsPuts(s.q.refusals, s.q.nextRefusal, s.puts, s.takenOver, Put(k, bytes, s.h.arrivals, None), p);
    }
  }

  lemma RefusingKeepsArrivals(h: History, puts: map<nat, Put>, refusals: map<nat, Refusal>,
                              refusals': map<nat, Refusal>,
                              put: Put, p: nat)
    requires ArrivalsIn(h, puts, refusals) && p !in puts && put.arrival == h.arrivals && RefusalLive(refusals', put)
    requires forall j :: j in puts && puts[j].key != put.key && RefusalLive(refusals, puts[j])
                         ==> RefusalLive(refusals', puts[j])
    ensures ArrivalsIn(Arrive(h, put.key, Some(p)), puts[p := put], refusals')
  {
  }

  lemma RefuseKeepsArrivals(s: Sys, p: nat, k: Key, bytes: string)
    requires PutsOk(s) && ArrivalsOk(s) && p !in s.puts
    ensures ArrivalsOk(RefuseStore(s, p, k, bytes))
  {
    var s' := RefuseStore(s, p, k, bytes);
    RefusingKeepsArrivals(s.h, s.puts, s.q.refusals, s'.q.refusals, s'.puts[p], p);
  }

  lemma RefuseKeepsRest(s: Sys, p: nat, k: Key, bytes: string)
    requires Inv(s)
    ensures var s' := RefuseStore(s, p, k, bytes);
            OrderOk(s'.q.order, s'.q.waiting) && FlightsOk(s') && Conserved(s') && s'.q.journalling
  {
    assert KeyOk(k, View(s, k));
    WithoutKey(s.q.order, k);
  }

  lemma RefuseKeeps(s: Sys, p: nat, k: Key, bytes: string)
    requires Inv(s) && p !in s.puts && s.unrecovered == {}
    ensures Inv(RefuseStore(s, p, k, bytes))
  {
    RefuseShows(s, p, k, bytes);
    forall j: Key | j != k ensures View(RefuseStore(s, p, k, bytes), j) == View(s, j) {
      RefuseElsewhere(s, p, k, bytes, j);
    }
    RefusedViewOk(k, View(s, k));
    KeysOkAfter(s, RefuseStore(s, p, k, bytes), k);
    RefuseKeepsPuts(s, p, k, bytes);
    RefuseKeepsArrivals(s, p, k, bytes);
    RefuseKeepsRest(s, p, k, bytes);
  }

  // A refused store resumes.

  /** Taking a refusal back leaves the others their own. */
  lemma TakingBackKeepsPuts(refusals: map<nat, Refusal>, next: nat, puts: map<nat, Put>, takenOver: map<Key, nat>,
                            p: nat)
    requires PutsIn(refusals, next, puts) && TakenOverIn(refusals, puts, takenOver)
    requires p in puts && puts[p].refusal.Some?
    ensures var refusals', puts' := refusals - {puts[p].refusal.value}, puts[p := puts[p].(refusal := None)];
            && PutsIn(refusals', next, puts') && PutsIn(refusals', next, puts - {p})
            && TakenOverIn(refusals', puts', takenOver)
            && (refusals[puts[p].refusal.value].overtaken ==> TakenOverIn(refusals', puts - {p}, takenOver))
  {
  }

  lemma TakeBackFrame(s: Sys, p: nat)
    requires PutsOk(s) && p in s.puts
    ensures var (s1, overtaken) := TakeBack(s, p);
            && s1 == s.(q := s1.q, puts := s1.puts) && s1.q == s.q.(refusals := s1.q.refusals)
            && s1.puts == s.puts[p := s.puts[p].(refusal := None)]
            && (overtaken ==> s.puts[p].refusal.Some?)
            && (s.puts[p].refusal.None? ==> s1 == s)
            && (s.puts[p].refusal.Some? ==>
                  && s1.q.refusals == s.q.refusals - {s.puts[p].refusal.value}
                  && overtaken == s.q.refusals[s.puts[p].refusal.value].overtaken)
  {
    var put := s.puts[p];
    assert put.refusal.None? ==> s.puts[p := put.(refusal := None)] == s.puts;
  }

  lemma TakeBackKeepsPuts(s: Sys, p: nat)
    requires PutsOk(s) && p in s.puts
    ensures var (s1, overtaken) := TakeBack(s, p);
            if overtaken then PutsOk(s1.(puts := s1.puts - {p})) else PutsOk(s1)
  {
    TakeBackFrame(s, p);
    if s.puts[p].refusal.Some? {
      TakingBackKeepsPuts(s.q.refusals, s.q.nextRefusal, s.puts, s.takenOver, p);
      var s1 := TakeBack(s, p).0;
      assert s1.puts - {p} == s.puts - {p};
    }
  }

  lemma TakingBackKeepsArrivals(h: History, puts: map<nat, Put>, refusals: map<nat, Refusal>, next: nat, p: nat)
    requires PutsIn(refusals, next, puts) && ArrivalsIn(h, puts, refusals) && p in puts && puts[p].refusal.Some?
    ensures var refusals', puts' := refusals - {puts[p].refusal.value}, puts[p := puts[p].(refusal := None)];
            && ArrivalsIn(h, puts', refusals')
            && (refusals[puts[p].refusal.value].overtaken ==> ArrivalsIn(h, puts - {p}, refusals'))
  {
  }

  lemma TakeBackKeepsArrivals(s: Sys, p: nat)
    requires PutsOk(s) && ArrivalsOk(s) && p in s.puts
    ensures var (s1, overtaken) := TakeBack(s, p);
            if overtaken then ArrivalsOk(s1.(puts := s1.puts - {p})) else ArrivalsOk(s1)
  {
    TakeBackFrame(s, p);
    if s.puts[p].refusal.Some? {
      TakingBackKeepsArrivals(s.h, s.puts, s.q.refusals, s.q.nextRefusal, p);
      var s1 := TakeBack(s, p).0;
      assert s1.puts - {p} == s.puts - {p};
    }
  }

  /** A step that only moves refusals and refused stores keeps everything if they stay in order. */
  lemma PutsOnly(s: Sys, s': Sys)
    requires Inv(s) && PutsOk(s') && ArrivalsOk(s') && Quiet(s')
    requires s' == s.(q := s'.q, puts := s'.puts)
    requires s'.q == s.q.(refusals := s'.q.refusals, nextRefusal := s'.q.nextRefusal)
    ensures Inv(s')
  {
    SameKeys(s, s');
  }

  lemma TakeBackKeeps(s: Sys, p: nat)
    requires Inv(s) && p in s.puts
    ensures var (s1, overtaken) := TakeBack(s, p);
            && s1 == s.(q := s1.q, puts := s1.puts) && s1.q == s.q.(refusals := s1.q.refusals)
            && p in s1.puts && s1.puts[p] == s.puts[p].(refusal := None)
            && (if overtaken then Inv(s1.(puts := s1.puts - {p})) else Inv(s1))
  {
    TakeBackFrame(s, p);
    TakeBackKeepsPuts(s, p);
    TakeBackKeepsArrivals(s, p);
    var (s1, overtaken) := TakeBack(s, p);
    PutsOnly(s, if overtaken then s1.(puts := s1.puts - {p}) else s1);
  }

  lemma SameKeys(s: Sys, s': Sys)
    requires KeysOk(s)
    requires s' == s.(q := s'.q, puts := s'.puts)
    requires s'.q == s.q.(refusals := s'.q.refusals, nextRefusal := s'.q.nextRefusal)
    ensures KeysOk(s')
  {
    forall j: Key ensures KeyOk(j, View(s', j)) {
      assert KeyOk(j, View(s, j)) && View(s', j) == View(s, j);
    }
  }

  lemma WatchKeeps(s: Sys, p: nat)
    requires Inv(s) && p in s.puts && s.puts[p].refusal.None? && s.puts[p].key in s.q.inFlight
    ensures Inv(Watch(s, p))
  {
    WatchKeepsPuts(s, p);
    PutsOnly(s, Watch(s, p));
  }

  lemma WatchKeepsPuts(s: Sys, p: nat)
    requires FlightsOk(s) && PutsOk(s) && ArrivalsOk(s) && p in s.puts && s.puts[p].refusal.None?
    requires s.puts[p].key in s.q.inFlight
    ensures PutsOk(Watch(s, p)) && ArrivalsOk(Watch(s, p))
  {
    WatchingKeepsPuts(s.q.refusals, s.q.nextRefusal, s.puts, s.takenOver, s.h, p, FlightId(s.q, s.puts[p].key));
  }

  lemma WatchingKeepsPuts(refusals: map<nat, Refusal>, next: nat, puts: map<nat, Put>, takenOver: map<Key, nat>,
                          h: History,
                          p: nat, flight: nat)
    requires PutsIn(refusals, next, puts) && TakenOverIn(refusals, puts, takenOver) && ArrivalsIn(h, puts, refusals)
    requires p in puts && puts[p].refusal.None?
    ensures var refusals', puts' := refusals[next := Refusal(puts[p].key, flight, false)],
                                    puts[p := puts[p].(refusal := Some(next))];
            PutsIn(refusals', next + 1, puts') && TakenOverIn(refusals', puts', takenOver)
            && ArrivalsIn(h, puts', refusals')
  {
  }

  function LaunchView(k: Key, v: KeyView, put: Put): KeyView {
    var gen := (if v.gen.Some? then v.gen.value else 0) + 1;
    v.(gen := Some(gen), flying := true,
       flight := Some(Flight(Item(k, None, gen, 0, 0), true, put.arrival, Some(put.bytes), false)))
  }

  function SyncView(k: Key, v: KeyView, put: Put): KeyView {
    if v.stamp.Some? && v.stamp.value > put.arrival then LaunchView(k, v, put)
    else LaunchView(k, v, put).(latest := Some(Memory(put.bytes)), stamp := Some(put.arrival),
                                takenOver := false, abandoned := false, lost := false)
  }

  lemma SyncViewOk(k: Key, v: KeyView, put: Put)
    requires KeyOk(k, v) && !v.flying && !v.unrecovered && v.stamp != Some(put.arrival)
    ensures KeyOk(k, SyncView(k, v, put)) <==> v.waiting.None? && !(v.stamp.Some? && v.stamp.value > put.arrival)
  {
  }

  lemma LaunchQueue(s: Sys, p: nat)
    requires p in s.puts && s.puts[p].key !in s.q.inFlight
    ensures var k := s.puts[p].key;
            Launch(s, p).q == s.q.(generation := s.q.generation[k := Generation(s.q, k) + 1],
                                   inFlight := s.q.inFlight + {k}, flightId := s.q.flightId[k := s.q.nextFlight],
                                   nextFlight := s.q.nextFlight + 1)
  {
  }

  lemma AcceptedElsewhere(s: Sys, k: Key, src: Source, arrival: nat, j: Key)
    requires j != k
    ensures View(Accepted(s, k, src, arrival), j) == View(s, j)
  {
  }

  lemma LaunchElsewhere(s: Sys, p: nat, j: Key)
    requires KeysOk(s) && FlightsOk(s) && p in s.puts && s.puts[p].key !in s.q.inFlight && j != s.puts[p].key
    ensures View(Launch(s, p), j) == View(s, j)
  {
    LaunchQueue(s, p);
    FlightsApart(s, s.q.nextFlight, j);
  }

  lemma SyncElsewhere(s: Sys, p: nat, j: Key)
    requires KeysOk(s) && FlightsOk(s) && p in s.puts && s.puts[p].key !in s.q.inFlight && j != s.puts[p].key
    ensures View(StartSync(s, p), j) == View(s, j)
  {
    LaunchElsewhere(s, p, j);
    AcceptedElsewhere(Launch(s, p), s.puts[p].key, Memory(s.puts[p].bytes), s.puts[p].arrival, j);
  }

  lemma LaunchShows(s: Sys, p: nat)
    requires p in s.puts && s.puts[p].key !in s.q.inFlight
    ensures View(Launch(s, p), s.puts[p].key) == LaunchView(s.puts[p].key, View(s, s.puts[p].key), s.puts[p])
  {
    LaunchQueue(s, p);
  }

  lemma AcceptedShows(s: Sys, k: Key, src: Source, arrival: nat)
    ensures View(Accepted(s, k, src, arrival), k)
            == View(s, k).(latest := Some(src), stamp := Some(arrival), takenOver := false,
                           abandoned := false, lost := false,
                           filed := if src.Disk? then Some(arrival) else View(s, k).filed)
  {
  }

  lemma SyncShows(s: Sys, p: nat)
    requires p in s.puts && s.puts[p].key !in s.q.inFlight
    ensures View(StartSync(s, p), s.puts[p].key) == SyncView(s.puts[p].key, View(s, s.puts[p].key), s.puts[p])
  {
    LaunchShows(s, p);
    if !Stale(s, p) {
      AcceptedShows(Launch(s, p), s.puts[p].key, Memory(s.puts[p].bytes), s.puts[p].arrival);
    }
  }

  lemma SyncRefusals(s: Sys, p: nat)
    requires p in s.puts
    ensures var s' := StartSync(s, p);
            s'.q.refusals == s.q.refusals && s'.q.nextRefusal == s.q.nextRefusal && s'.puts == s.puts - {p}
  {
    var s1 := Launch(s, p);
    assert s1.q.refusals == s.q.refusals && s1.q.nextRefusal == s.q.nextRefusal && s1.puts == s.puts - {p};
  }

  lemma SyncKeepsPuts(s: Sys, p: nat)
    requires PutsOk(s) && p in s.puts && s.puts[p].refusal.None? && !Stale(s, p)
    ensures PutsOk(StartSync(s, p))
  {
    SyncRefusals(s, p);
  }

  lemma SyncingKeepsArrivals(h: History, puts: map<nat, Put>, refusals: map<nat, Refusal>, p: nat)
    requires ArrivalsIn(h, puts, refusals) && p in puts
    requires puts[p].key in h.stamp ==> h.stamp[puts[p].key] <= puts[p].arrival
    ensures ArrivalsIn(h.(stamp := h.stamp[puts[p].key := puts[p].arrival]), puts - {p}, refusals)
  {
  }

  lemma SyncKeepsArrivals(s: Sys, p: nat)
    requires ArrivalsOk(s) && p in s.puts && !Stale(s, p)
    ensures ArrivalsOk(StartSync(s, p))
  {
    SyncingKeepsArrivals(s.h, s.puts, s.q.refusals, p);
    SyncRefusals(s, p);
  }

  lemma LaunchKeepsFlights(s: Sys, p: nat)
    requires FlightsOk(s) && p in s.puts && s.puts[p].key !in s.q.inFlight
    ensures FlightsOk(Launch(s, p))
  {
    LaunchQueue(s, p);
    NewFlight(s.q.inFlight, s.q.flightId, s.q.nextFlight, s.flights, Launch(s, p).flights[s.q.nextFlight]);
  }

  lemma SyncIsLaunch(s: Sys, p: nat)
    requires p in s.puts
    ensures var s1, s' := Launch(s, p), StartSync(s, p);
            s'.q == s1.q && s'.flights == s1.flights && s'.counters == s1.counters
  {
  }

  lemma SyncKeepsRest(s: Sys, p: nat)
    requires Inv(s) && p in s.puts && s.puts[p].key !in s.q.inFlight
    ensures var s' := StartSync(s, p);
            OrderOk(s'.q.order, s'.q.waiting) && FlightsOk(s') && Conserved(s') && s'.q.journalling
  {
    LaunchKeepsFlights(s, p);
    LaunchQueue(s, p);
    SyncIsLaunch(s, p);
  }

  /**
   The exact condition on a refused store that starts its own upload: on a key
   not in flight, everything a run keeps survives if and only if the key is not
   waiting and no store of it that arrived later has been accepted. The source
   checks neither for a store that holds no refusal record.
   */
  lemma SyncKeepsExactly(s: Sys, p: nat)
    requires Inv(s) && p in s.puts && s.puts[p].refusal.None? && s.puts[p].key !in s.q.inFlight
    ensures Inv(StartSync(s, p)) <==> s.puts[p].key !in s.q.waiting && !Stale(s, p)
  {
    var s', k := StartSync(s, p), s.puts[p].key;
    SyncShows(s, p);
    assert KeyOk(k, View(s, k));
    SyncViewOk(k, View(s, k), s.puts[p]);
    if k !in s.q.waiting && !Stale(s, p) {
      forall j: Key | j != k ensures View(s', j) == View(s, j) {
        SyncElsewhere(s, p, j);
      }
      KeysOkAfter(s, s', k);
      SyncKeepsPuts(s, p);
      SyncKeepsArrivals(s, p);
      SyncKeepsRest(s, p);
    } else {
      assert !KeyOk(k, View(s', k));
    }
  }

  // A worker takes the next ready item.

  function ArrivalIn(v: KeyView, item: Item): nat {
    var arrival := if item.blob.None? then v.filed else v.stamp;
    if arrival.Some? then arrival.value else 0
  }

  function TakenView(v: KeyView): KeyView
    requires v.waiting.Some?
  {
    var item := v.waiting.value;
    v.(waiting := None, flying := true,
       flight := Some(Flight(item, false, ArrivalIn(v, item),
                             if item.blob.Some? then Some(item.blob.value.bytes) else None, false)))
  }

  lemma TakenViewOk(k: Key, v: KeyView)
    requires KeyOk(k, v) && v.waiting.Some?
    ensures KeyOk(k, TakenView(v))
  {
  }

  lemma TakeElsewhere(s: Sys, now: int, j: Key)
    requires KeysOk(s) && FlightsOk(s) && FirstReady(s.q, 0, now) < |s.q.order|
    requires j != s.q.order[FirstReady(s.q, 0, now)]
    ensures View(TakeNext(s, now), j) == View(s, j)
  {
    assert KeyOk(s.q.order[FirstReady(s.q, 0, now)], View(s, s.q.order[FirstReady(s.q, 0, now)]));
    FlightsApart(s, s.q.nextFlight, j);
  }

  lemma TakeShows(s: Sys, now: int)
    requires KeysOk(s) && FlightsOk(s) && FirstReady(s.q, 0, now) < |s.q.order|
    ensures var k := s.q.order[FirstReady(s.q, 0, now)];
            Touches(s, TakeNext(s, now), k) && View(TakeNext(s, now), k) == TakenView(View(s, k))
  {
    var s', k := TakeNext(s, now), s.q.order[FirstReady(s.q, 0, now)];
    assert KeyOk(k, View(s, k));
    forall j: Key | j != k ensures View(s', j) == View(s, j) {
      TakeElsewhere(s, now, j);
    }
  }

  lemma TakeKeepsOrder(q: Queue, i: nat)
    requires OrderOk(q.order, q.waiting) && i < |q.order| && q.order[i] in q.waiting
    ensures OrderOk(TakeAt(q, i).order, TakeAt(q, i).waiting)
  {
    var k, rest := q.order[i], q.order[..i] + q.order[i + 1..];
    forall j ensures j in rest <==> j in q.order && j != k {
      if j in q.order && j != k {
        var n :| 0 <= n < |q.order| && q.order[n] == j;
        assert rest[if n < i then n else n - 1] == j;
      }
    }
  }

  /** A new flight of a key that has none is the one its key is registered under. */
  lemma NewFlight(inFlight: set<Key>, flightId: map<Key, nat>, next: nat, flights: map<nat, Flight>, fl: Flight)
    requires FlightsIn(inFlight, flightId, next, flights) && fl.item.key !in inFlight
    ensures FlightsIn(inFlight + {fl.item.key}, flightId[fl.item.key := next], next + 1, flights[next := fl])
  {
  }

  lemma TakeFrame(s: Sys, now: int)
    requires FirstReady(s.q, 0, now) < |s.q.order|
    requires var k := s.q.order[FirstReady(s.q, 0, now)]; k in s.q.waiting && s.q.waiting[k].key == k
    ensures var s', k := TakeNext(s, now), s.q.order[FirstReady(s.q, 0, now)];
            && s'.q.waiting == s.q.waiting - {k} && s'.q.inFlight == s.q.inFlight + {k}
            && s'.q.flightId == s.q.flightId[k := s.q.nextFlight] && s'.q.nextFlight == s.q.nextFlight + 1
            && s'.q.refusals == s.q.refusals && s'.q.nextRefusal == s.q.nextRefusal
            && s'.q.journalling == s.q.journalling
            && s' == s.(q := s'.q, flights := s'.flights) && s.q.nextFlight in s'.flights
            && s'.flights == s.flights[s.q.nextFlight := s'.flights[s.q.nextFlight]]
            && s'.flights[s.q.nextFlight].item.key == k
  {
  }

  lemma TakeKeepsRest(s: Sys, now: int)
    requires Inv(s) && FirstReady(s.q, 0, now) < |s.q.order|
    ensures var s' := TakeNext(s, now);
            FlightsOk(s') && PutsOk(s') && ArrivalsOk(s') && Conserved(s') && s'.q.journalling
  {
    var s', k := TakeNext(s, now), s.q.order[FirstReady(s.q, 0, now)];
    assert WaitingOk(k, View(s, k)) by {
      assert KeyOk(k, View(s, k));
    }
    TakeFrame(s, now);
    NewFlight(s.q.inFlight, s.q.flightId, s.q.nextFlight, s.flights, s'.flights[s.q.nextFlight]);
    assert s'.q.waiting.Keys == s.q.waiting.Keys - {k};
  }

  lemma TakeKeeps(s: Sys, now: int)
    requires Inv(s)
    ensures Inv(TakeNext(s, now))
  {
    var i := FirstReady(s.q, 0, now);
    if i < |s.q.order| {
      var k := s.q.order[i];
      assert KeyOk(k, View(s, k));
      TakeShows(s, now);
      TakenViewOk(k, View(s, k));
      KeysOkAfter(s, TakeNext(s, now), k);
      TakeKeepsOrder(s.q, i);
      TakeKeepsRest(s, now);
    }
  }

  // A flight ends.

  predicate IsRewritten(v: KeyView)
    requires v.flight.Some?
  {
    !v.superseded && v.gen.Some? && v.gen.value != v.flight.value.item.generation
  }

  function EndedView(v: KeyView, givenUp: bool): KeyView {
    v.(flying := false, flight := None, superseded := false, recount := false, held := None, gen := None,
       marker := false, abandoned := v.abandoned || givenUp)
  }

  function BackView(v: KeyView, item: Item, recount: bool): KeyView {
    v.(flying := false, flight := None, waiting := Some(item), recount := recount)
  }

  function FinishedView(k: Key, v: KeyView): KeyView
    requires v.flight.Some?
  {
    if IsRewritten(v) then BackView(v, Item(k, v.held, v.gen.value, 0, 0), false)
    else EndedView(v, !v.superseded && !v.flight.value.landed)
  }

  function RetriedView(v: KeyView, retryAt: int): KeyView
    requires v.flight.Some?
  {
    var item := v.flight.value.item;
    if v.superseded then EndedView(v, false)
    else if IsRewritten(v) then
      BackView(v, item.(generation := v.gen.value, attempts := 0, blob := v.held, notBefore := retryAt), v.recount)
    else BackView(v, item.(attempts := item.attempts + 1, notBefore := retryAt), v.recount)
  }

  lemma BackViewOk(k: Key, v: KeyView, item: Item, recount: bool)
    requires KeyOk(k, v) && v.flight.Some? && !v.superseded
    requires item.key == k && v.gen == Some(item.generation) && item.blob == v.held && HeldOk(v)
    ensures KeyOk(k, BackView(v, item, recount))
  {
  }

  lemma FinishedViewOk(k: Key, v: KeyView)
    requires KeyOk(k, v) && v.flight.Some?
    ensures KeyOk(k, FinishedView(k, v))
  {
    if IsRewritten(v) {
      BackViewOk(k, v, Item(k, v.held, v.gen.value, 0, 0), false);
    }
  }

  lemma RetriedViewOk(k: Key, v: KeyView, retryAt: int)
    requires KeyOk(k, v) && v.flight.Some? && Retries(v.flight.value)
    ensures KeyOk(k, RetriedView(v, retryAt))
  {
    if !v.superseded {
      BackViewOk(k, v, RetriedView(v, retryAt).waiting.value, v.recount);
    }
  }

  lemma LedgerAfterLanding(l: Ledger, k: Key)
    ensures ReleasePin(l, k).held == l.held
    ensures Lookup(DropHeld(ReleasePin(l, k), k).held, k) == None
    ensures forall j: Key :: j != k ==> Lookup(DropHeld(ReleasePin(l, k), k).held, j) == Lookup(l.held, j)
  {
    DroppedHeld(ReleasePin(l, k), k);
  }

  lemma FinishShows(s: Sys, f: nat)
    requires Inv(s) && f in s.flights
    ensures var k := s.flights[f].item.key;
            View(FinishFlight(s, f, s.flights[f]), k) == FinishedView(k, View(s, k))
  {
    var k := s.flights[f].item.key;
    assert KeyOk(k, View(s, k));
    LedgerAfterLanding(s.q.ledger, k);
  }

  lemma RetryShows(s: Sys, f: nat, retryAt: int)
    requires Inv(s) && f in s.flights
    ensures View(RetryFlight(s, f, s.flights[f], retryAt), s.flights[f].item.key) ==
            RetriedView(View(s, s.flights[f].item.key), retryAt)
  {
    var k := s.flights[f].item.key;
    assert KeyOk(k, View(s, k));
    LedgerAfterLanding(s.q.ledger, k);
  }

  lemma LandSameInQueue(q: Queue, k: Key, j: Key)
    requires j != k
    ensures SameInQueue(q, Land(q, k), j)
  {
    LedgerAfterLanding(q.ledger, k);
  }

  lemma ForgetSameInQueue(q: Queue, k: Key, j: Key)
    requires j != k
    ensures SameInQueue(q, Forget(q, k), j)
  {
    DroppedHeld(q.ledger, k);
  }

  lemma PushSameInQueue(q: Queue, item: Item, j: Key)
    requires j != item.key
    ensures SameInQueue(q, Push(q, item), j) && SameInQueue(q, q.(recount := q.recount - {item.key}), j)
  {
  }

  lemma SameInQueueTrans(q: Queue, q1: Queue, q2: Queue, j: Key)
    requires SameInQueue(q, q1, j) && SameInQueue(q1, q2, j)
    ensures SameInQueue(q, q2, j)
  {
  }

  lemma FinishSameInQueue(q: Queue, item: Item, j: Key)
    requires j != item.key
    ensures SameInQueue(q, Finish(q, item).0, j)
  {
    var k := item.key;
    var q1 := Land(q, k);
    LandSameInQueue(q, k, j);
    if Rewritten(q, item) {
      var again := Item(k, Lookup(q1.ledger.held, k), q1.generation[k], 0, 0);
      var q2 := q1.(recount := q1.recount - {k});
      PushSameInQueue(q1, again, j);
      PushSameInQueue(q2, again, j);
      SameInQueueTrans(q, q1, q2, j);
      SameInQueueTrans(q, q2, Push(q2, again), j);
    } else {
      ForgetSameInQueue(q1, k, j);
      SameInQueueTrans(q, q1, Forget(q1, k), j);
    }
  }

  lemma RequeueSameInQueue(q: Queue, item: Item, j: Key)
    requires j != item.key
    ensures SameInQueue(q, Requeue(q, item).0, j)
  {
    var q1 := Land(q, item.key);
    LandSameInQueue(q, item.key, j);
    ForgetSameInQueue(q1, item.key, j);
    PushSameInQueue(q1, Latest(q, item), j);
    SameInQueueTrans(q, q1, Requeue(q, item).0, j);
  }

  lemma FinishElsewhere(s: Sys, f: nat, j: Key)
    requires KeysOk(s) && FlightsOk(s) && f in s.flights && s.flights[f].item.key != j
    ensures View(FinishFlight(s, f, s.flights[f]), j) == View(s, j)
  {
    FlightsApart(s, f, j);
    FinishSameInQueue(s.q, s.flights[f].item, j);
  }

  lemma RetryElsewhere(s: Sys, f: nat, retryAt: int, j: Key)
    requires KeysOk(s) && FlightsOk(s) && f in s.flights && s.flights[f].item.key != j
    ensures View(RetryFlight(s, f, s.flights[f], retryAt), j) == View(s, j)
  {
    FlightsApart(s, f, j);
    var item := s.flights[f].item;
    var again, s' := item.(attempts := item.attempts + 1, notBefore := retryAt),
                     RetryFlight(s, f, s.flights[f], retryAt);
    RequeueSameInQueue(s.q, again, j);
    assert s'.q == Requeue(s.q, again).0 && s'.flights == s.flights - {f};
  }

  lemma FinishKeepsKeys(s: Sys, f: nat)
    requires Inv(s) && f in s.flights
    ensures KeysOk(FinishFlight(s, f, s.flights[f]))
  {
    var s', k := FinishFlight(s, f, s.flights[f]), s.flights[f].item.key;
    assert KeyOk(k, View(s, k));
    FinishShows(s, f);
    FinishedViewOk(k, View(s, k));
    forall j: Key | j != k ensures View(s', j) == View(s, j) {
      FinishElsewhere(s, f, j);
    }
    KeysOkAfter(s, s', k);
  }

  lemma RetryKeepsKeys(s: Sys, f: nat, retryAt: int)
    requires Inv(s) && f in s.flights && Retries(s.flights[f])
    ensures KeysOk(RetryFlight(s, f, s.flights[f], retryAt))
  {
    var s', k := RetryFlight(s, f, s.flights[f], retryAt), s.flights[f].item.key;
    assert KeyOk(k, View(s, k));
    RetryShows(s, f, retryAt);
    RetriedViewOk(k, View(s, k), retryAt);
    forall j: Key | j != k ensures View(s', j) == View(s, j) {
      RetryElsewhere(s, f, retryAt, j);
    }
    KeysOkAfter(s, s', k);
  }

  lemma FinishKeeps(s: Sys, f: nat)
    requires Inv(s) && f in s.flights
    ensures Inv(FinishFlight(s, f, s.flights[f]))
  {
    FinishKeepsKeys(s, f);
    var k := s.flights[f].item.key;
    assert KeyOk(k, View(s, k));
  }

  lemma RetryKeeps(s: Sys, f: nat, retryAt: int)
    requires Inv(s) && f in s.flights && Retries(s.flights[f])
    ensures Inv(RetryFlight(s, f, s.flights[f], retryAt))
  {
    RetryKeepsKeys(s, f, retryAt);
    var k := s.flights[f].item.key;
    assert KeyOk(k, View(s, k));
  }

  lemma CrashKeeps(s: Sys)
    requires Inv(s)
    ensures Inv(AfterCrash(s))
  {
    forall k: Key ensures KeyOk(k, View(AfterCrash(s), k)) {
      assert KeyOk(k, View(s, k));
    }
  }

  // ---- runs ------------------------------------------------------------------------

  /**
   A refused store must not start its own upload of a key that is waiting, nor
   of one for which a store that arrived later has been accepted. The source
   leaves this to chance between a refused Enqueue and BeginSync.
   */
  predicate Disciplined(s: Sys, step: Step)
    requires Enabled(s, step)
  {
    step.Resume? ==>
      var (s1, overtaken) := TakeBack(s, step.put);
      || overtaken || s1.puts[step.put].key in s1.q.inFlight
      || (s1.puts[step.put].key !in s1.q.waiting && !Stale(s1, step.put))
  }

  lemma ResumeKeeps(s: Sys, p: nat)
    requires Inv(s) && p in s.puts && Disciplined(s, Resume(p))
    ensures Inv(ResumePut(s, p))
  {
    TakeBackKeeps(s, p);
    var (s1, overtaken) := TakeBack(s, p);
    if !overtaken {
      if s1.puts[p].key in s1.q.inFlight {
        WatchKeeps(s1, p);
      } else {
        SyncKeepsExactly(s1, p);
      }
    }
  }

  lemma StepKeeps(s: Sys, step: Step)
    requires Inv(s) && Enabled(s, step) && Disciplined(s, step)
    ensures Inv(Next(s, step))
  {
    match step
    case DiskWrite(k, v) => DiskKeeps(s, step);
    case DiskEvict(k) => DiskKeeps(s, step);
    case StoreDisk(k) => AcceptKeeps(s, k, None, true, OnDisk(s, k));
    case StoreMemory(p, k, blob) =>
      if Refuses(s.q, k, Some(blob)) {
        RefuseKeeps(s, p, k, blob.bytes);
      } else {
        AcceptKeeps(s, k, Some(blob), false, Memory(blob.bytes));
      }
    case Resume(p) => ResumeKeeps(s, p);
    case Take(now) => TakeKeeps(s, now);
    case Load(f) => LoadKeeps(s, f);
    case Send(f, landed, reported) => SendKeeps(s, f, landed, reported);
    case Retire(f, retryAt) =>
      if Retries(s.flights[f]) {
        RetryKeeps(s, f, retryAt);
      } else {
        FinishKeeps(s, f);
      }
    case Crash => CrashKeeps(s);
    case Recover(k) => RecoverKeeps(s, k);
  }

  ghost predicate IsRun(s: Sys, steps: seq<Step>)
    decreases |steps|
  {
    steps == [] || (Enabled(s, steps[0]) && IsRun(Next(s, steps[0]), steps[1..]))
  }

  ghost predicate IsDisciplined(s: Sys, steps: seq<Step>)
    requires IsRun(s, steps)
    decreases |steps|
  {
    steps == [] || (Disciplined(s, steps[0]) && IsDisciplined(Next(s, steps[0]), steps[1..]))
  }

  ghost function After(s: Sys, steps: seq<Step>): Sys
    requires IsRun(s, steps)
    decreases |steps|
  {
    if steps == [] then s else After(Next(s, steps[0]), steps[1..])
  }

  lemma {:induction false} RunKeeps(s: Sys, steps: seq<Step>)
    requires Inv(s) && IsRun(s, steps) && IsDisciplined(s, steps)
    ensures Inv(After(s, steps))
    decreases |steps|
  {
    if steps != [] {
      StepKeeps(s, steps[0]);
      RunKeeps(Next(s, steps[0]), steps[1..]);
    }
  }

  lemma InitKeeps(maxHeldBytes: nat)
    ensures Inv(Init(maxHeldBytes))
  {
  }

  /**
   The newest accepted store of `k` is waiting with its own value, or being sent, or
   will follow what is being sent.
   */
  predicate Pending(s: Sys, k: Key) {
    && k in s.latest && k in s.h.stamp
    && (|| (k in s.q.waiting && BlobIs(s.q.waiting[k].blob, s.latest[k])
            && Generation(s.q, k) == s.q.waiting[k].generation)
        || (k in s.q.inFlight && FlightOf(s, k).Some? && k !in s.q.superseded
            && var f := FlightOf(s, k).value;
               || (f.item.generation < Generation(s.q, k) && BlobIs(Lookup(s.q.ledger.held, k), s.latest[k]))
               || (f.item.generation == Generation(s.q, k) && f.arrival == s.h.stamp[k])))
  }

  lemma KeyIsPending(s: Sys, k: Key)
    requires KeyOk(k, View(s, k)) && k in s.latest && Tracked(View(s, k)) && k !in s.lost
    ensures Pending(s, k) || (k in s.q.superseded && k in s.takenOver)
  {
  }

  /** The refused store that took `k` over is still there, and nothing has overtaken it. */
  predicate HasTaker(s: Sys, k: Key) {
    && k in s.takenOver && s.takenOver[k] in s.puts && s.puts[s.takenOver[k]].key == k
    && RefusalLive(s.q.refusals, s.puts[s.takenOver[k]])
  }

  /**
   No lost update. In every run, whatever is rewritten, retried, refused or
   evicted, the newest accepted store of each key is waiting at the current
   generation with its own value, or in flight, or in S3; or its upload was
   given up after its attempts, or a refused store that nothing has overtaken
   took the key over, or a crash left the marker that stands for it, or a crash
   has lost it.
   */
  lemma NoLostUpdate(maxHeldBytes: nat, steps: seq<Step>, k: Key)
    requires IsRun(Init(maxHeldBytes), steps) && IsDisciplined(Init(maxHeldBytes), steps)
    ensures var s := After(Init(maxHeldBytes), steps);
            k in s.latest ==>
              || Pending(s, k) || Uploaded(s, k) || k in s.abandoned || HasTaker(s, k) || k in s.lost
              || (k in s.unrecovered && k in s.q.journal && Lookup(s.h.filed, k) == Lookup(s.h.stamp, k))
  {
    InitKeeps(maxHeldBytes);
    RunKeeps(Init(maxHeldBytes), steps);
    var s := After(Init(maxHeldBytes), steps);
    assert KeyOk(k, View(s, k));
    if k in s.latest && Tracked(View(s, k)) && k !in s.lost {
      KeyIsPending(s, k);
    }
  }

  /**
   In every run the store that arrived last for a key has been accepted, or was
   refused and nothing has overtaken it, or was refused and ended by a crash.
   */
  lemma LastArrivalStands(maxHeldBytes: nat, steps: seq<Step>, k: Key)
    requires IsRun(Init(maxHeldBytes), steps) && IsDisciplined(Init(maxHeldBytes), steps)
    ensures var s := After(Init(maxHeldBytes), steps);
            k in s.h.newest ==> NewestOk(s.h, s.puts, s.q.refusals, k, s.h.newest[k])
  {
    InitKeeps(maxHeldBytes);
    RunKeeps(Init(maxHeldBytes), steps);
  }

  /** Nothing is waiting, being sent, retried, given up or left by a crash. */
  predicate AllSettled(s: Sys) {
    s.q.waiting == map[] && s.q.inFlight == {} && s.puts == map[] && s.abandoned == {} && s.unrecovered == {}
  }

  /**
   When everything has drained by successful uploads, S3 holds, for every key
   whose newest accepted store no crash has lost, that store; and it is the one
   that arrived last, unless a crash ended that one's thread before it was accepted.
   */
  lemma NewestWins(maxHeldBytes: nat, steps: seq<Step>, k: Key)
    requires IsRun(Init(maxHeldBytes), steps) && IsDisciplined(Init(maxHeldBytes), steps)
    ensures var s := After(Init(maxHeldBytes), steps);
            AllSettled(s) && k in s.h.newest && k !in s.lost ==>
              && (k in s.latest ==> Uploaded(s, k))
              && (s.h.newest[k].arrival !in s.h.killed ==> Uploaded(s, k) && s.h.sentBy[k] == s.h.newest[k].arrival)
  {
    LastArrivalStands(maxHeldBytes, steps, k);
    NoLostUpdate(maxHeldBytes, steps, k);
    InitKeeps(maxHeldBytes);
    RunKeeps(Init(maxHeldBytes), steps);
    assert KeyOk(k, View(After(Init(maxHeldBytes), steps), k));
  }

  // ---- crashes ---------------------------------------------------------------------

  /** A lost store stays lost until the key has another newest accepted one. */
  ghost predicate LostUntilNewer(s: Sys, s': Sys, k: Key) {
    k in s'.lost <==> k in s.lost && Lookup(s'.h.stamp, k) == Lookup(s.h.stamp, k)
  }

  lemma AcceptLost(s: Sys, j: Key, blob: Option<Blob>, journal: bool, src: Source, k: Key)
    requires ArrivalsOk(s)
    ensures LostUntilNewer(s, AcceptStore(s, j, blob, journal, src), k)
  {
    assert j in s.h.stamp ==> j in s.h.newest && NewestOk(s.h, s.puts, s.q.refusals, j, s.h.newest[j]);
  }

  lemma SyncLost(s: Sys, p: nat, k: Key)
    requires ArrivalsOk(s) && p in s.puts
    ensures LostUntilNewer(s, StartSync(s, p), k)
  {
    var s1 := Launch(s, p);
    assert s1.lost == s.lost && s1.h == s.h;
  }

  lemma ResumeLost(s: Sys, p: nat, k: Key)
    requires PutsOk(s) && ArrivalsOk(s) && p in s.puts
    ensures LostUntilNewer(s, ResumePut(s, p), k)
  {
    TakeBackFrame(s, p);
    TakeBackKeepsArrivals(s, p);
    var (s1, overtaken) := TakeBack(s, p);
    if !overtaken && s1.puts[p].key !in s1.q.inFlight {
      SyncLost(s1, p, k);
    }
  }

  lemma StoreLost(s: Sys, p: nat, j: Key, blob: Blob, k: Key)
    requires ArrivalsOk(s) && Enabled(s, StoreMemory(p, j, blob))
    ensures LostUntilNewer(s, Next(s, StoreMemory(p, j, blob)), k)
  {
    if !Refuses(s.q, j, Some(blob)) {
      AcceptLost(s, j, Some(blob), false, Memory(blob.bytes), k);
    }
  }

  lemma RetireLost(s: Sys, f: nat, retryAt: int)
    requires f in s.flights
    ensures var s' := Next(s, Retire(f, retryAt)); s'.lost == s.lost && s'.h == s.h
  {
    RetireIs(s, f, retryAt);
  }

  lemma TakeLost(s: Sys, now: int)
    ensures TakeNext(s, now).lost == s.lost && TakeNext(s, now).h == s.h
  {
  }

  /** The exact step by which a newest accepted store is lost, and that only a newer one makes up for it. */
  lemma LostExactly(s: Sys, step: Step, k: Key)
    requires Inv(s) && Enabled(s, step)
    ensures k in Next(s, step).lost <==>
            (step.Crash? && AtRisk(s, k)) || (k in s.lost && Lookup(Next(s, step).h.stamp, k) == Lookup(s.h.stamp, k))
  {
    match step
    case StoreDisk(j) => AcceptLost(s, j, None, true, OnDisk(s, j), k);
    case StoreMemory(p, j, blob) => StoreLost(s, p, j, blob, k);
    case Resume(p) => ResumeLost(s, p, k);
    case Take(now) => TakeLost(s, now);
    case Retire(f, retryAt) => RetireLost(s, f, retryAt);
    case _ =>
  }

  /** Every crash of the run finds each newest accepted store on disk with its marker, or else in S3. */
  ghost predicate CrashesSafely(s: Sys, steps: seq<Step>)
    requires IsRun(s, steps)
    decreases |steps|
  {
    steps == [] || ((steps[0].Crash? ==> forall k :: !AtRisk(s, k)) && CrashesSafely(Next(s, steps[0]), steps[1..]))
  }

  /** In such a run no store is lost, however many crashes there are. */
  lemma {:induction false} SafeCrashesLoseNothing(s: Sys, steps: seq<Step>)
    requires Inv(s) && IsRun(s, steps) && IsDisciplined(s, steps) && CrashesSafely(s, steps) && s.lost == {}
    ensures After(s, steps).lost == {}
    decreases |steps|
  {
    if steps != [] {
      forall k ensures k !in Next(s, steps[0]).lost {
        LostExactly(s, steps[0], k);
      }
      StepKeeps(s, steps[0]);
      SafeCrashesLoseNothing(Next(s, steps[0]), steps[1..]);
    }
  }

  /** So in such a run the newest store wins for every key, as it does without crashes. */
  lemma NewestWinsSafely(maxHeldBytes: nat, steps: seq<Step>, k: Key)
    requires IsRun(Init(maxHeldBytes), steps) && IsDisciplined(Init(maxHeldBytes), steps)
    requires CrashesSafely(Init(maxHeldBytes), steps)
    ensures var s := After(Init(maxHeldBytes), steps);
            AllSettled(s) && k in s.h.newest ==>
              && (k in s.latest ==> Uploaded(s, k))
              && (s.h.newest[k].arrival !in s.h.killed ==> Uploaded(s, k) && s.h.sentBy[k] == s.h.newest[k].arrival)
  {
    InitKeeps(maxHeldBytes);
    SafeCrashesLoseNothing(Init(maxHeldBytes), steps);
    NewestWins(maxHeldBytes, steps, k);
  }

  /** The newest accepted store of `k` is on its way, or in S3 with nothing on its way that would replace it. */
  predicate Secured(s: Sys, k: Key) {
    Pending(s, k) || (Uploaded(s, k) && k !in s.q.waiting && k !in s.q.inFlight)
  }

  /** A crash, and the marker of `k` queued again if there is one. */
  function CrashAndRecover(s: Sys, k: Key): Sys {
    if k in s.q.journal then Next(AfterCrash(s), Recover(k)) else AfterCrash(s)
  }

  /**
   From every state of a run, a crash and the recovery from it keep the newest
   accepted store of a key if and only if the key has a marker and the store
   went to disk, or the key has none and the store is in S3.
   */
  lemma CrashKeepsExactly(s: Sys, k: Key)
    requires Inv(s) && k in s.latest
    ensures Secured(CrashAndRecover(s, k), k) <==> if k in s.q.journal then s.latest[k].Disk? else Uploaded(s, k)
  {
    if k in s.q.journal {
      RecoveredIsSecured(s, k);
    } else {
      UnmarkedIsSecured(s, k);
    }
  }

  lemma UnmarkedIsSecured(s: Sys, k: Key)
    ensures Secured(AfterCrash(s), k) <==> Uploaded(s, k)
  {
    var s' := AfterCrash(s);
    assert s'.q.waiting == map[] && s'.q.inFlight == {} && !Pending(s', k);
    assert Uploaded(s', k) <==> Uploaded(s, k);
  }

  lemma RecoveredIsSecured(s: Sys, k: Key)
    requires Inv(s) && k in s.latest && k in s.q.journal
    ensures var s' := CrashAndRecover(s, k);
            && k in s'.q.waiting && s'.q.waiting[k].blob == None && k in s'.q.journal
            && s'.latest == s.latest && s'.h.stamp == s.h.stamp
            && (Secured(s', k) <==> s.latest[k].Disk?)
  {
    assert KeyOk(k, View(s, k));
    RecoverShows(AfterCrash(s), k);
  }

  /** The upload counters balance at every lock release, and the pending figure shown is never negative. */
  lemma CountersConserved(maxHeldBytes: nat, steps: seq<Step>)
    requires IsRun(Init(maxHeldBytes), steps) && IsDisciplined(Init(maxHeldBytes), steps)
    ensures var s := After(Init(maxHeldBytes), steps);
            && s.counters.queued == s.counters.done + s.counters.failed + s.counters.skipped
                                    + |s.q.waiting.Keys| + |s.q.inFlight|
            && s.q.superseded <= s.q.inFlight
            && |s.q.waiting.Keys| + |s.q.inFlight| - |s.q.superseded| >= 0
  {
    InitKeeps(maxHeldBytes);
    RunKeeps(Init(maxHeldBytes), steps);
    var s := After(Init(maxHeldBytes), steps);
    forall k | k in s.q.superseded ensures k in s.q.inFlight {
      assert KeyOk(k, View(s, k));
    }
    SubsetCard(s.q.superseded, s.q.inFlight);
  }

  lemma {:induction false} SubsetCard<T>(a: set<T>, b: set<T>)
    requires a <= b
    ensures |a| <= |b|
  {
    if a != {} {
      var x :| x in a;
      SubsetCard(a - {x}, b - {x});
    }
  }

  // ---- what single steps promise ---------------------------------------------------

  /** The newest accepted store waits with its own value, at the generation it had. */
  predicate GoneBack(s: Sys, s': Sys, k: Key) {
    && k in s'.q.waiting && k in s.latest && s'.latest == s.latest
    && BlobIs(s'.q.waiting[k].blob, s.latest[k])
    && s'.q.waiting[k].generation == Generation(s.q, k) == Generation(s'.q, k)
  }

  lemma ShownBack(s: Sys, s': Sys, k: Key, v: KeyView, item: Item, recount: bool)
    requires v == View(s, k) && View(s', k) == BackView(v, item, recount) && s'.latest == s.latest
    requires v.latest.Some? && v.gen == Some(item.generation) && BlobIs(item.blob, v.latest.value)
    ensures GoneBack(s, s', k)
  {
    assert Lookup(s'.q.waiting, k) == Some(item) && Lookup(s'.q.generation, k) == Lookup(s.q.generation, k);
  }

  lemma RewrittenShows(s: Sys, f: nat)
    requires Inv(s) && f in s.flights
    requires var k := s.flights[f].item.key;
             k !in s.q.superseded && Generation(s.q, k) != s.flights[f].item.generation
    ensures var v := View(s, s.flights[f].item.key);
            && v.flight == Some(s.flights[f]) && IsRewritten(v) && v.latest.Some? && BlobIs(v.held, v.latest.value)
  {
    assert KeyOk(s.flights[f].item.key, View(s, s.flights[f].item.key));
  }

  lemma FinishGoesBack(s: Sys, f: nat, v: KeyView)
    requires Inv(s) && f in s.flights && v == View(s, s.flights[f].item.key)
    requires v.flight == Some(s.flights[f]) && IsRewritten(v) && v.latest.Some? && BlobIs(v.held, v.latest.value)
    ensures GoneBack(s, FinishFlight(s, f, s.flights[f]), s.flights[f].item.key)
  {
    var k := s.flights[f].item.key;
    FinishShows(s, f);
    ShownBack(s, FinishFlight(s, f, s.flights[f]), k, v, Item(k, v.held, v.gen.value, 0, 0), false);
  }

  lemma RetryGoesBack(s: Sys, f: nat, retryAt: int, v: KeyView)
    requires Inv(s) && f in s.flights && v == View(s, s.flights[f].item.key)
    requires v.flight == Some(s.flights[f]) && IsRewritten(v) && v.latest.Some? && BlobIs(v.held, v.latest.value)
    ensures GoneBack(s, RetryFlight(s, f, s.flights[f], retryAt), s.flights[f].item.key)
  {
    var item := s.flights[f].item;
    RetryShows(s, f, retryAt);
    ShownBack(s, RetryFlight(s, f, s.flights[f], retryAt), item.key, v,
              item.(generation := v.gen.value, attempts := 0, blob := v.held, notBefore := retryAt), v.recount);
  }

  lemma RetireIs(s: Sys, f: nat, retryAt: int)
    requires f in s.flights
    ensures Next(s, Retire(f, retryAt)) == if Retries(s.flights[f]) then RetryFlight(s, f, s.flights[f], retryAt)
                                           else FinishFlight(s, f, s.flights[f])
  {
  }

  /** A flight overtaken by a newer accepted store puts that store back when it ends, however it ends. */
  lemma RewriteGoesBack(s: Sys, f: nat, retryAt: int)
    requires Inv(s) && f in s.flights
    requires var k := s.flights[f].item.key;
             k !in s.q.superseded && Generation(s.q, k) != s.flights[f].item.generation
    ensures GoneBack(s, Next(s, Retire(f, retryAt)), s.flights[f].item.key)
  {
    var v := View(s, s.flights[f].item.key);
    RewrittenShows(s, f);
    RetireIs(s, f, retryAt);
    if Retries(s.flights[f]) {
      RetryGoesBack(s, f, retryAt, v);
    } else {
      FinishGoesBack(s, f, v);
    }
  }

  predicate OvertakenIn(refusals: map<nat, Refusal>, puts: map<nat, Put>, p: nat) {
    && p in puts && puts[p].refusal.Some?
    && puts[p].refusal.value in refusals && refusals[puts[p].refusal.value].overtaken
  }

  predicate IsOvertaken(s: Sys, p: nat) { OvertakenIn(s.q.refusals, s.puts, p) }

  /** An accepted store overtakes the refused stores of its key that hold a refusal record, and no others. */
  lemma AcceptOvertakesExactly(s: Sys, k: Key, blob: Option<Blob>, journal: bool, src: Source, p: nat)
    requires PutsOk(s) && p in s.puts && s.puts[p].key == k
    ensures IsOvertaken(AcceptStore(s, k, blob, journal, src), p) <==> s.puts[p].refusal.Some?
    ensures s.puts[p].refusal.None? && ArrivalsOk(s) ==> Stale(AcceptStore(s, k, blob, journal, src), p)
  {
  }

  /** No operation but taking a refusal back forgets it or clears its mark. */
  ghost predicate MarksKept(refusals: map<nat, Refusal>, refusals': map<nat, Refusal>, next: nat) {
    forall id :: id in refusals && id < next && refusals[id].overtaken ==> id in refusals' && refusals'[id].overtaken
  }

  lemma AcceptMarks(q: Queue, k: Key, blob: Option<Blob>, journal: bool)
    ensures MarksKept(q.refusals, Accept(q, k, blob, journal).refusals, q.nextRefusal)
  {
    AcceptRefusals(q, k, blob, journal);
  }

  lemma RefuseMarks(q: Queue, k: Key)
    ensures MarksKept(q.refusals, Refuse(q, k).refusals, q.nextRefusal)
  {
  }

  lemma LandMarks(q: Queue, item: Item)
    ensures Finish(q, item).0.refusals == Requeue(q, item).0.refusals == q.refusals
  {
  }

  lemma ResumeMarks(s: Sys, p: nat, p': nat)
    requires PutsOk(s) && IsOvertaken(s, p) && p' in s.puts && p' != p
    ensures IsOvertaken(ResumePut(s, p'), p)
  {
    TakeBackFrame(s, p');
    var (s1, overtaken) := TakeBack(s, p');
    assert OvertakenIn(s1.q.refusals, s1.puts, p);
    if !overtaken && s1.puts[p'].key in s1.q.inFlight {
      WatchMarks(s1, p, p');
    } else if !overtaken {
      SyncMarks(s1, p, p');
    }
  }

  lemma WatchMarks(s: Sys, p: nat, p': nat)
    requires PutsIn(s.q.refusals, s.q.nextRefusal, s.puts - {p'}) && IsOvertaken(s, p) && p' in s.puts && p' != p
    ensures IsOvertaken(Watch(s, p'), p)
  {
    assert p in s.puts - {p'};
  }

  lemma SyncMarks(s: Sys, p: nat, p': nat)
    requires IsOvertaken(s, p) && p' in s.puts && p' != p
    ensures IsOvertaken(StartSync(s, p'), p)
  {
    SyncRefusals(s, p');
  }

  lemma StoreMarks(s: Sys, p: nat, p': nat, k: Key, blob: Blob)
    requires PutsOk(s) && IsOvertaken(s, p) && Enabled(s, StoreMemory(p', k, blob))
    ensures IsOvertaken(Next(s, StoreMemory(p', k, blob)), p)
  {
    if Refuses(s.q, k, Some(blob)) {
      RefuseMarks(s.q, k);
    } else {
      AcceptMarks(s.q, k, Some(blob), false);
    }
  }

  lemma RetireMarks(s: Sys, p: nat, f: nat, retryAt: int)
    requires IsOvertaken(s, p) && f in s.flights
    ensures IsOvertaken(Next(s, Retire(f, retryAt)), p)
  {
    var item := s.flights[f].item;
    if Retries(s.flights[f]) {
      LandMarks(s.q, item.(attempts := item.attempts + 1, notBefore := retryAt));
    } else {
      LandMarks(s.q, item);
    }
  }

  /** Being overtaken lasts until the refused store resumes. */
  lemma OvertakenStays(s: Sys, step: Step, p: nat)
    requires Inv(s) && Enabled(s, step) && IsOvertaken(s, p) && !step.Crash? && step != Resume(p)
    ensures IsOvertaken(Next(s, step), p)
  {
    match step
    case StoreDisk(k) => AcceptMarks(s.q, k, None, true);
    case Recover(k) => AcceptMarks(s.q, k, None, false);
    case StoreMemory(p', k, blob) => StoreMarks(s, p, p', k, blob);
    case Resume(p') => ResumeMarks(s, p, p');
    case Retire(f, retryAt) => RetireMarks(s, p, f, retryAt);
    case _ =>
  }

  /** An overtaken store gives up without uploading anything. */
  lemma OvertakenGivesUp(s: Sys, p: nat)
    requires IsOvertaken(s, p)
    ensures var s' := ResumePut(s, p);
            && s'.puts == s.puts - {p} && s'.flights == s.flights && s'.latest == s.latest
            && s'.q == s.q.(refusals := s.q.refusals - {s.puts[p].refusal.value})
  {
  }

  /** The steps after which a marker may be gone. */
  predicate MayUnmark(s: Sys, step: Step, k: Key)
    requires Enabled(s, step)
  {
    || (step.Retire? && s.flights[step.flight].item.key == k
        && (k in s.q.superseded || s.flights[step.flight].item.generation == Generation(s.q, k)))
    || (step.StoreMemory? && step.key == k && Refuses(s.q, k, Some(step.blob)) && k in s.q.waiting)
  }

  lemma RefuseJournal(q: Queue, k: Key)
    requires k in q.ledger.held ==> k in q.waiting || k in q.inFlight
    ensures Refuse(q, k).journal == if k in q.inFlight || k !in q.waiting then q.journal else Unjournalled(q, k)
  {
  }

  lemma LandJournal(q: Queue, item: Item)
    ensures Finish(q, item).0.journal == if Rewritten(q, item) then q.journal else Unjournalled(q, item.key)
    ensures Requeue(q, item).0.journal == if item.key in q.superseded then Unjournalled(q, item.key) else q.journal
  {
  }

  lemma TakeBackJournal(s: Sys, p: nat)
    requires p in s.puts
    ensures TakeBack(s, p).0.q.journal == s.q.journal && p in TakeBack(s, p).0.puts
  {
  }

  lemma SyncJournal(s: Sys, p: nat)
    requires p in s.puts && s.puts[p].key !in s.q.inFlight
    ensures StartSync(s, p).q.journal == s.q.journal
  {
  }

  lemma WatchJournal(s: Sys, p: nat)
    requires p in s.puts && s.puts[p].key in s.q.inFlight
    ensures Watch(s, p).q.journal == s.q.journal
  {
  }

  lemma ResumeJournal(s: Sys, p: nat)
    requires p in s.puts
    ensures ResumePut(s, p).q.journal == s.q.journal
  {
    TakeBackJournal(s, p);
    var (s1, overtaken) := TakeBack(s, p);
    if !overtaken && s1.puts[p].key in s1.q.inFlight {
      WatchJournal(s1, p);
    } else if !overtaken {
      SyncJournal(s1, p);
    }
  }

  lemma AcceptJournal(q: Queue, k: Key, blob: Option<Blob>, journal: bool)
    ensures q.journal <= Accept(q, k, blob, journal).journal
  {
  }

  lemma FlightHasGeneration(s: Sys, f: nat)
    requires Inv(s) && f in s.flights
    ensures s.flights[f].item.key in s.q.generation
  {
    assert KeyOk(s.flights[f].item.key, View(s, s.flights[f].item.key));
  }

  lemma FinishJournal(s: Sys, f: nat, fl: Flight, k: Key)
    requires k in s.q.journal && (k != fl.item.key || Rewritten(s.q, fl.item))
    ensures k in FinishFlight(s, f, fl).q.journal
  {
    LandJournal(s.q, fl.item);
  }

  lemma RetryJournal(s: Sys, f: nat, fl: Flight, retryAt: int, k: Key)
    requires k in s.q.journal && (k != fl.item.key || k !in s.q.superseded)
    ensures k in RetryFlight(s, f, fl, retryAt).q.journal
  {
    LandJournal(s.q, fl.item.(attempts := fl.item.attempts + 1, notBefore := retryAt));
  }

  lemma RetireJournal(s: Sys, f: nat, retryAt: int, k: Key)
    requires Inv(s) && f in s.flights && k in s.q.journal && !MayUnmark(s, Retire(f, retryAt), k)
    ensures k in Next(s, Retire(f, retryAt)).q.journal
  {
    FlightHasGeneration(s, f);
    RetireIs(s, f, retryAt);
    if Retries(s.flights[f]) {
      RetryJournal(s, f, s.flights[f], retryAt, k);
    } else {
      FinishJournal(s, f, s.flights[f], k);
    }
  }

  lemma StoreJournal(s: Sys, p: nat, j: Key, blob: Blob, k: Key)
    requires Inv(s) && Enabled(s, StoreMemory(p, j, blob))
    requires k in s.q.journal && !MayUnmark(s, StoreMemory(p, j, blob), k)
    ensures k in Next(s, StoreMemory(p, j, blob)).q.journal
  {
    if Refuses(s.q, j, Some(blob)) {
      assert KeyOk(j, View(s, j));
      RefuseJournal(s.q, j);
    } else {
      AcceptJournal(s.q, j, Some(blob), false);
    }
  }

  lemma TakeJournal(s: Sys, now: int)
    ensures TakeNext(s, now).q.journal == s.q.journal
  {
  }

  /** A marker goes only when the current generation finishes, or when another store takes the upload over. */
  lemma MarkerRemoval(s: Sys, step: Step, k: Key)
    requires Inv(s) && Enabled(s, step) && k in s.q.journal && !MayUnmark(s, step, k)
    ensures k in Next(s, step).q.journal
  {
    match step
    case StoreDisk(j) => AcceptJournal(s.q, j, None, true);
    case Recover(j) => AcceptJournal(s.q, j, None, false);
    case StoreMemory(p, j, blob) => StoreJournal(s, p, j, blob, k);
    case Resume(p) => ResumeJournal(s, p);
    case Take(now) => TakeJournal(s, now);
    case Retire(f, retryAt) => RetireJournal(s, f, retryAt, k);
    case _ =>
  }

  /** A refused store that unmarks a waiting key has taken its upload over. */
  lemma UnmarkingTakesOver(s: Sys, p: nat, k: Key, blob: Blob)
    requires k in s.q.waiting && Refuses(s.q, k, Some(blob)) && Enabled(s, StoreMemory(p, k, blob))
    ensures var s' := Next(s, StoreMemory(p, k, blob));
            k in s'.takenOver && s'.takenOver[k] == p && s'.puts[p].key == k && s'.puts[p].bytes == blob.bytes
  {
  }

  /**
   Journal crash safety: in every run, a key whose newest accepted store is on
   disk and whose current generation has not finished has its marker, so after
   a crash it can be recovered and recovery queues it again from disk.
   */
  lemma JournalCrashSafety(maxHeldBytes: nat, steps: seq<Step>, k: Key)
    requires IsRun(Init(maxHeldBytes), steps) && IsDisciplined(Init(maxHeldBytes), steps)
    ensures var s := After(Init(maxHeldBytes), steps);
            k in s.latest && s.latest[k].Disk? && k in s.q.generation ==>
              && k in s.q.journal
              && Enabled(AfterCrash(s), Recover(k))
              && var s' := Next(AfterCrash(s), Recover(k));
              && k in s'.q.waiting && s'.q.waiting[k].blob == None
              && Secured(s', k) && s'.latest == s.latest && s'.h.stamp == s.h.stamp && k in s'.q.journal
  {
    InitKeeps(maxHeldBytes);
    RunKeeps(Init(maxHeldBytes), steps);
    var s := After(Init(maxHeldBytes), steps);
    assert KeyOk(k, View(s, k));
    if k in s.latest && s.latest[k].Disk? && k in s.q.generation {
      RecoveredIsSecured(s, k);
    }
  }
}
