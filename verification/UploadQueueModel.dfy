/**
 The daemon's upload queue as a value: one record holding every field of the
 source's class, and one function per operation. The class in UploadQueue.dfy
 updates those fields in place and is proved to compute these functions; the
 run-level theorems in UploadRuns.dfy are about sequences of them.
 */
module UploadQueueModel {
  import opened Common

  type Key = string

  /** A shared immutable string. `id` is the identity that pointer comparison sees. */
  datatype Blob = Blob(id: nat, bytes: string) {
    function Size(): nat { |bytes| }
  }

  /** A queued upload. A missing blob means "read it from disk when sending". */
  datatype Item = Item(key: Key, blob: Option<Blob>, generation: nat, attempts: nat, notBefore: int)

  datatype Pin = Pin(blob: Blob, countedOutsideHeld: bool)

  datatype Refusal = Refusal(key: Key, flightId: nat, overtaken: bool)

  /** The in-memory blobs and their byte counter. */
  datatype Ledger = Ledger(held: map<Key, Blob>, pins: map<Key, Pin>, heldBytes: int)

  datatype Queue = Queue(
    maxHeldBytes: nat,
    journalling: bool,
    order: seq<Key>,
    waiting: map<Key, Item>,
    generation: map<Key, nat>,
    inFlight: set<Key>,
    flightId: map<Key, nat>,
    superseded: set<Key>,
    recount: set<Key>,
    refusals: map<nat, Refusal>,
    nextRefusal: nat,
    nextFlight: nat,
    ledger: Ledger,
    journal: set<Key>)

  function Empty(maxHeldBytes: nat, journal: set<Key>): Queue {
    Queue(maxHeldBytes, true, [], map[], map[], {}, map[], {}, {}, map[], 1, 1, Ledger(map[], map[], 0), journal)
  }

  // ---- private helpers of the class ------------------------------------------------

  /** The worker sending `k` has the very blob that is held for it, and it is counted once, in `held`. */
  predicate PinnedInHeld(l: Ledger, k: Key) {
    k in l.held && k in l.pins && l.pins[k] == Pin(l.held[k], false)
  }

  /** A blob a worker still has stays in the byte count, on the pin instead of in `held`. */
  function DropHeld(l: Ledger, k: Key): Ledger {
    if k !in l.held then l
    else if PinnedInHeld(l, k) then Ledger(l.held - {k}, l.pins[k := Pin(l.held[k], true)], l.heldBytes)
    else Ledger(l.held - {k}, l.pins, l.heldBytes - l.held[k].Size())
  }

  function ReleasePin(l: Ledger, k: Key): Ledger {
    if k !in l.pins then l
    else
      Ledger(l.held, l.pins - {k},
             l.heldBytes - (if l.pins[k].countedOutsideHeld then l.pins[k].blob.Size() else 0))
  }

  function Hold(l: Ledger, k: Key, blob: Option<Blob>): Ledger {
    var d := DropHeld(l, k);
    match blob
    case None => d
    case Some(b) => Ledger(d.held[k := b], d.pins, d.heldBytes + b.Size())
  }

  function Without(order: seq<Key>, k: Key): seq<Key> {
    if order == [] then []
    else (if order[0] == k then [] else [order[0]]) + Without(order[1..], k)
  }

  function Unjournalled(q: Queue, k: Key): set<Key> {
    if q.journalling then q.journal - {k} else q.journal
  }

  function Journalled(q: Queue, k: Key): set<Key> {
    if q.journalling then q.journal + {k} else q.journal
  }

  function ForgetQueued(q: Queue, k: Key): Queue {
    q.(waiting := q.waiting - {k}, order := Without(q.order, k), ledger := DropHeld(q.ledger, k),
       generation := q.generation - {k}, journal := Unjournalled(q, k))
  }

  function Overtaken(refusals: map<nat, Refusal>, k: Key): map<nat, Refusal> {
    map id | id in refusals ::
      if refusals[id].key == k then refusals[id].(overtaken := true) else refusals[id]
  }

  function Generation(q: Queue, k: Key): nat {
    if k in q.generation then q.generation[k] else 0
  }

  function FlightId(q: Queue, k: Key): nat {
    if k in q.flightId then q.flightId[k] else 0
  }

  function Supersede(q: Queue, k: Key): Queue {
    q.(refusals := Overtaken(q.refusals, k)[q.nextRefusal := Refusal(k, FlightId(q, k), false)],
       nextRefusal := q.nextRefusal + 1,
       generation := q.generation[k := Generation(q, k) + 1],
       superseded := q.superseded + {k},
       ledger := DropHeld(q.ledger, k))
  }

  function MarkInFlight(q: Queue, k: Key): Queue {
    q.(inFlight := q.inFlight + {k}, flightId := q.flightId[k := q.nextFlight], nextFlight := q.nextFlight + 1)
  }

  // ---- public operations -----------------------------------------------------------

  function NextHeldBytes(q: Queue, k: Key, blob: Blob): int {
    var stays := k in q.inFlight && PinnedInHeld(q.ledger, k);
    var replaced := if k in q.ledger.held && !stays then q.ledger.held[k].Size() else 0;
    q.ledger.heldBytes - replaced + blob.Size()
  }

  /** Only a blob to be held can be refused; a store already on disk never is. */
  predicate Refuses(q: Queue, k: Key, blob: Option<Blob>) {
    blob.Some? && NextHeldBytes(q, k, blob.value) > q.maxHeldBytes
  }

  function Push(q: Queue, item: Item): Queue {
    q.(waiting := q.waiting[item.key := item], order := q.order + [item.key])
  }

  /** A key already waiting keeps its place, its attempts and its retry time. */
  function QueueUp(q: Queue, k: Key, blob: Option<Blob>, gen: nat): (r: Queue)
    ensures k in r.waiting && r == q.(waiting := q.waiting[k := r.waiting[k]], order := r.order)
    ensures r.waiting[k].key == (if k in q.waiting then q.waiting[k].key else k)
  {
    if k in q.waiting then q.(waiting := q.waiting[k := q.waiting[k].(generation := gen, blob := blob)])
    else Push(q, Item(k, blob, gen, 0, 0))
  }

  function Refuse(q: Queue, k: Key): Queue {
    if k in q.inFlight then Supersede(q, k)
    else if k in q.waiting || k in q.ledger.held then ForgetQueued(q, k)
    else q
  }

  /** A new generation: older refusals are overtaken and a superseded mark is cleared. */
  function Renew(q: Queue, k: Key): (r: Queue)
    ensures k in r.generation
  {
    q.(refusals := Overtaken(q.refusals, k),
       superseded := q.superseded - {k},
       recount := if k in q.inFlight then q.recount + {k} else q.recount,
       generation := q.generation[k := Generation(q, k) + 1])
  }

  function Accept(q: Queue, k: Key, blob: Option<Blob>, journal: bool): Queue {
    var q1 := Renew(q, k).(ledger := Hold(q.ledger, k, blob),
                           journal := if journal then Journalled(q, k) else q.journal);
    if k in q.inFlight then q1 else QueueUp(q1, k, blob, q1.generation[k])
  }

  function Enqueue(q: Queue, k: Key, blob: Option<Blob>, journal: bool): Queue {
    if Refuses(q, k, blob) then Refuse(q, k) else Accept(q, k, blob, journal)
  }

  /** Zero when the key is already in flight. */
  function BeginSync(q: Queue, k: Key): (Queue, nat) {
    if k in q.inFlight then (q, 0)
    else
      var gen := Generation(q, k) + 1;
      (MarkInFlight(q.(generation := q.generation[k := gen]), k), gen)
  }

  /** Zero when the key is not in flight. */
  function WatchFlight(q: Queue, k: Key): (Queue, nat) {
    if k !in q.flightId then (q, 0)
    else
      (q.(refusals := q.refusals[q.nextRefusal := Refusal(k, q.flightId[k], false)],
          nextRefusal := q.nextRefusal + 1),
       q.nextRefusal)
  }

  /** Whether the flight that a refused store waits for is still going on. */
  predicate RefusalStillInFlight(q: Queue, id: nat) {
    && id in q.refusals && q.refusals[id].key in q.flightId
    && q.flightId[q.refusals[id].key] == q.refusals[id].flightId
  }

  function TakeRefusal(q: Queue, id: nat): (Queue, bool) {
    if id !in q.refusals then (q, false)
    else (q.(refusals := q.refusals - {id}), q.refusals[id].overtaken)
  }

  predicate Ready(q: Queue, i: nat, now: int)
    requires i < |q.order|
  {
    q.order[i] in q.waiting && q.waiting[q.order[i]].notBefore <= now
  }

  /** The first ready position at or after `i`, or the end of the queue. */
  function FirstReady(q: Queue, i: nat, now: int): (r: nat)
    requires i <= |q.order|
    ensures i <= r <= |q.order|
    ensures r < |q.order| ==> Ready(q, r, now)
    ensures forall j :: i <= j < r ==> !Ready(q, j, now)
    decreases |q.order| - i
  {
    if i == |q.order| || Ready(q, i, now) then i else FirstReady(q, i + 1, now)
  }

  function PinFor(l: Ledger, item: Item): Ledger {
    if item.blob.Some? then l.(pins := l.pins[item.key := Pin(item.blob.value, false)]) else l
  }

  function TakeAt(q: Queue, i: nat): Queue
    requires i < |q.order| && q.order[i] in q.waiting
  {
    var item := q.waiting[q.order[i]];
    MarkInFlight(q.(order := q.order[..i] + q.order[i + 1..],
                    waiting := q.waiting - {q.order[i]},
                    ledger := PinFor(q.ledger, item)),
                 item.key)
  }

  function TakeReady(q: Queue, now: int): (Queue, Option<Item>) {
    var i := FirstReady(q, 0, now);
    if i == |q.order| then (q, None) else (TakeAt(q, i), Some(q.waiting[q.order[i]]))
  }

  /** What Finish and Requeue both do first: the flight is over. */
  function Land(q: Queue, k: Key): Queue {
    q.(inFlight := q.inFlight - {k}, flightId := q.flightId - {k}, ledger := ReleasePin(q.ledger, k))
  }

  function Forget(q: Queue, k: Key): Queue {
    q.(superseded := q.superseded - {k}, recount := q.recount - {k}, ledger := DropHeld(q.ledger, k),
       generation := q.generation - {k}, journal := Unjournalled(q, k))
  }

  predicate Rewritten(q: Queue, item: Item) {
    item.key !in q.superseded && item.key in q.generation && q.generation[item.key] != item.generation
  }

  /** The queue, whether a newer value went back, and whether that counts as another queued upload. */
  function Finish(q: Queue, item: Item): (Queue, bool, bool) {
    var k := item.key;
    var q1 := Land(q, k);
    if Rewritten(q, item) then
      (Push(q1.(recount := q1.recount - {k}), Item(k, Lookup(q1.ledger.held, k), q1.generation[k], 0, 0)),
       true, k in q.recount)
    else (Forget(q1, k), false, false)
  }

  /** A retry carries the newest accepted value. */
  function Latest(q: Queue, item: Item): (r: Item)
    ensures r.key == item.key
  {
    if Rewritten(q, item) then
      item.(generation := q.generation[item.key], attempts := 0, blob := Lookup(q.ledger.held, item.key))
    else item
  }

  function Requeue(q: Queue, item: Item): (Queue, bool) {
    var k := item.key;
    var q1 := Land(q, k);
    if k in q.superseded then (Forget(q1, k), true)
    else (Push(q1, Latest(q, item)), false)
  }

  // ---- held-byte accounting --------------------------------------------------------

  ghost function HeldSizes(held: map<Key, Blob>): map<Key, nat> {
    map k | k in held :: held[k].Size()
  }

  ghost function PinnedOutside(pins: map<Key, Pin>): map<Key, nat> {
    map k | k in pins :: if pins[k].countedOutsideHeld then pins[k].blob.Size() else 0
  }

  /** The counter is exactly the bytes of the held blobs plus those of the pins counted outside `held`. */
  ghost predicate Exact(l: Ledger) {
    l.heldBytes == Total(HeldSizes(l.held)) + Total(PinnedOutside(l.pins))
  }

  lemma DropHeldExact(l: Ledger, k: Key)
    requires Exact(l)
    ensures Exact(DropHeld(l, k))
  {
    if k in l.held {
      TotalDrop(HeldSizes(l.held), k);
      assert HeldSizes(l.held - {k}) == HeldSizes(l.held) - {k};
      if PinnedInHeld(l, k) {
        TotalPut(PinnedOutside(l.pins), k, l.held[k].Size());
        assert PinnedOutside(DropHeld(l, k).pins) == PinnedOutside(l.pins)[k := l.held[k].Size()];
      }
    }
  }

  lemma HoldExact(l: Ledger, k: Key, blob: Option<Blob>)
    requires Exact(l)
    ensures Exact(Hold(l, k, blob))
    ensures Hold(l, k, blob).heldBytes ==
            l.heldBytes - (if k in l.held && !PinnedInHeld(l, k) then l.held[k].Size() else 0)
            + (if blob.Some? then blob.value.Size() else 0)
    ensures Hold(l, k, blob).pins.Keys == l.pins.Keys
  {
    DropHeldExact(l, k);
    if blob.Some? {
      var held := DropHeld(l, k).held;
      TotalPut(HeldSizes(held), k, blob.value.Size());
      assert HeldSizes(held[k := blob.value]) == HeldSizes(held)[k := blob.value.Size()];
    }
  }

  lemma ReleasePinExact(l: Ledger, k: Key)
    requires Exact(l)
    ensures Exact(ReleasePin(l, k))
  {
    if k in l.pins {
      TotalDrop(PinnedOutside(l.pins), k);
      assert PinnedOutside(l.pins - {k}) == PinnedOutside(l.pins) - {k};
    }
  }

  lemma PinExact(l: Ledger, item: Item)
    requires Exact(l) && item.key !in l.pins
    ensures Exact(PinFor(l, item))
  {
    if item.blob.Some? {
      TotalPut(PinnedOutside(l.pins), item.key, 0);
      assert PinnedOutside(PinFor(l, item).pins) == PinnedOutside(l.pins)[item.key := 0];
    }
  }

  /** The counter is exact and within the cap; a pinned key is in flight and not waiting. */
  ghost predicate Accounted(q: Queue) {
    AccountedIn(q.ledger, q.maxHeldBytes, q.inFlight, q.waiting)
  }

  ghost predicate AccountedIn(l: Ledger, maxHeldBytes: nat, inFlight: set<Key>, waiting: map<Key, Item>) {
    && Exact(l)
    && l.heldBytes <= maxHeldBytes
    && l.pins.Keys <= inFlight - waiting.Keys
    && KeyedByItem(waiting)
  }

  predicate KeyedByItem(waiting: map<Key, Item>) {
    forall k :: k in waiting ==> waiting[k].key == k
  }

  /** Admitting a blob leaves the counter at exactly the figure the cap was checked against. */
  lemma HoldFits(q: Queue, k: Key, blob: Option<Blob>)
    requires Accounted(q) && !Refuses(q, k, blob)
    ensures var l := Hold(q.ledger, k, blob);
            && Exact(l) && l.heldBytes <= q.maxHeldBytes && l.pins.Keys == q.ledger.pins.Keys
            && (blob.Some? ==> l.heldBytes == NextHeldBytes(q, k, blob.value))
  {
    HoldExact(q.ledger, k, blob);
  }

  /** The bytes in memory for uploads: blobs held for later, and blobs being sent that are held no more. */
  ghost function BytesIn(l: Ledger): nat { Total(HeldSizes(l.held)) + Total(PinnedOutside(l.pins)) }

  /** A store would take the bytes in memory beyond the cap. One that is to be read from disk takes none. */
  ghost predicate TooMuch(q: Queue, k: Key, blob: Option<Blob>) {
    blob.Some? && BytesIn(Hold(q.ledger, k, blob)) > q.maxHeldBytes
  }

  /** Exactly such a store is refused: whatever is in flight or waiting, one that fits is taken. */
  lemma RefusesExactly(q: Queue, k: Key, blob: Option<Blob>)
    requires Accounted(q)
    ensures Refuses(q, k, blob) <==> TooMuch(q, k, blob)
  {
    HoldExact(q.ledger, k, blob);
  }

  lemma AccountedAfter(q: Queue, l: Ledger, k: Key, item: Item)
    requires Accounted(q) && item.key == k
    requires Exact(l) && l.heldBytes <= q.maxHeldBytes && l.pins.Keys == q.ledger.pins.Keys
    ensures AccountedIn(l, q.maxHeldBytes, q.inFlight, if k in q.inFlight then q.waiting else q.waiting[k := item])
  {
  }

  lemma AcceptAccounted(q: Queue, k: Key, blob: Option<Blob>, journal: bool)
    requires Accounted(q) && !Refuses(q, k, blob)
    ensures Accounted(Accept(q, k, blob, journal))
  {
    HoldFits(q, k, blob);
    var r := Accept(q, k, blob, journal);
    var item := if k in r.waiting then r.waiting[k] else Item(k, blob, 0, 0, 0);
    assert r.waiting == if k in q.inFlight then q.waiting else q.waiting[k := item];
    assert item.key == k;
    AccountedAfter(q, Hold(q.ledger, k, blob), k, item);
  }

  lemma SupersedeAccounted(q: Queue, k: Key)
    requires Accounted(q) && k in q.inFlight
    ensures Accounted(Supersede(q, k))
  {
    DropHeldExact(q.ledger, k);
  }

  lemma RefuseAccounted(q: Queue, k: Key)
    requires Accounted(q)
    ensures Accounted(Refuse(q, k))
  {
    DropHeldExact(q.ledger, k);
    if k in q.inFlight {
      SupersedeAccounted(q, k);
    }
  }

  lemma TakeReadyAccounted(q: Queue, now: int)
    requires Accounted(q)
    ensures Accounted(TakeReady(q, now).0)
  {
    var i := FirstReady(q, 0, now);
    if i < |q.order| {
      PinExact(q.ledger, q.waiting[q.order[i]]);
    }
  }

  lemma LandedAccounted(q: Queue, item: Item)
    requires Accounted(q)
    ensures var l := ReleasePin(q.ledger, item.key);
            && AccountedIn(l, q.maxHeldBytes, q.inFlight - {item.key}, q.waiting[item.key := item])
            && AccountedIn(DropHeld(l, item.key), q.maxHeldBytes, q.inFlight - {item.key}, q.waiting)
  {
    ReleasePinExact(q.ledger, item.key);
    DropHeldExact(ReleasePin(q.ledger, item.key), item.key);
  }

  lemma FinishAccounted(q: Queue, item: Item)
    requires Accounted(q)
    ensures Accounted(Finish(q, item).0)
  {
    if Rewritten(q, item) {
      LandedAccounted(q, Item(item.key, Lookup(q.ledger.held, item.key), q.generation[item.key], 0, 0));
    } else {
      LandedAccounted(q, item);
    }
  }

  lemma RequeueAccounted(q: Queue, item: Item)
    requires Accounted(q)
    ensures Accounted(Requeue(q, item).0)
  {
    LandedAccounted(q, Latest(q, item));
  }

  datatype Call =
    | CallEnqueue(key: Key, blob: Option<Blob>, journal: bool)
    | CallTakeReady(now: int)
    | CallFinish(item: Item)
    | CallRequeue(item: Item)
    | CallBeginSync(key: Key)
    | CallWatchFlight(key: Key)
    | CallTakeRefusal(id: nat)

  function Apply(q: Queue, c: Call): Queue {
    match c
    case CallEnqueue(k, blob, journal) => Enqueue(q, k, blob, journal)
    case CallTakeReady(now) => TakeReady(q, now).0
    case CallFinish(item) => Finish(q, item).0
    case CallRequeue(item) => Requeue(q, item).0
    case CallBeginSync(k) => BeginSync(q, k).0
    case CallWatchFlight(k) => WatchFlight(q, k).0
    case CallTakeRefusal(id) => TakeRefusal(q, id).0
  }

  function ApplyAll(q: Queue, calls: seq<Call>): Queue
    decreases |calls|
  {
    if calls == [] then q else ApplyAll(Apply(q, calls[0]), calls[1..])
  }

  lemma ApplyAccounted(q: Queue, c: Call)
    requires Accounted(q)
    ensures Accounted(Apply(q, c)) && Apply(q, c).maxHeldBytes == q.maxHeldBytes
  {
    match c
    case CallEnqueue(k, blob, journal) => EnqueueAccounted(q, k, blob, journal);
    case CallTakeReady(now) => TakeReadyAccounted(q, now);
    case CallFinish(item) => FinishAccounted(q, item);
    case CallRequeue(item) => RequeueAccounted(q, item);
    case _ =>
  }

  lemma EnqueueAccounted(q: Queue, k: Key, blob: Option<Blob>, journal: bool)
    requires Accounted(q)
    ensures Accounted(Enqueue(q, k, blob, journal)) && Enqueue(q, k, blob, journal).maxHeldBytes == q.maxHeldBytes
  {
    if Refuses(q, k, blob) {
      RefuseAccounted(q, k);
    } else {
      AcceptAccounted(q, k, blob, journal);
    }
  }

  /** Whatever calls arrive, in whatever order and with whatever arguments, the accounts stay right. */
  lemma {:induction false} CallsKeepAccounts(q: Queue, calls: seq<Call>)
    requires Accounted(q)
    ensures Accounted(ApplyAll(q, calls)) && ApplyAll(q, calls).maxHeldBytes == q.maxHeldBytes
    decreases |calls|
  {
    if calls != [] {
      ApplyAccounted(q, calls[0]);
      CallsKeepAccounts(Apply(q, calls[0]), calls[1..]);
    }
  }

  lemma EmptyIsAccounted(maxHeldBytes: nat, journal: set<Key>)
    ensures Accounted(Empty(maxHeldBytes, journal))
  {
  }

  /**
   Held-byte accounting over every run of a queue that started empty: the
   counter stays exact, never goes below zero and never exceeds the cap.
   */
  lemma HeldBytesExactAndCapped(maxHeldBytes: nat, journal: set<Key>, calls: seq<Call>)
    ensures var r := ApplyAll(Empty(maxHeldBytes, journal), calls);
            && 0 <= r.ledger.heldBytes <= maxHeldBytes
            && r.ledger.heldBytes == Total(HeldSizes(r.ledger.held)) + Total(PinnedOutside(r.ledger.pins))
  {
    EmptyIsAccounted(maxHeldBytes, journal);
    CallsKeepAccounts(Empty(maxHeldBytes, journal), calls);
  }
}
