/**
 The upload queue as the daemon keeps it: an object whose operations update its
 maps, sets and byte counter in place. Every operation is proved to move the
 object's view by the corresponding function of UploadQueueModel.
 */
module UploadQueueClass {
  import opened Common
  import M = UploadQueueModel

  type Key = M.Key

  class UploadQueue {
    const maxHeldBytes: nat
    const journalling: bool
    var order: seq<Key>
    var waiting: map<Key, M.Item>
    var generation: map<Key, nat>
    var inFlight: set<Key>
    var flightId: map<Key, nat>
    var superseded: set<Key>
    var recount: set<Key>
    var refusals: map<nat, M.Refusal>
    var nextRefusal: nat
    var nextFlight: nat
    var pins: map<Key, M.Pin>
    var held: map<Key, M.Blob>
    var heldBytes: int
    var journal: set<Key>  // the marker files in the journal directory

    ghost function View(): M.Queue
      reads this
    {
      M.Queue(maxHeldBytes, journalling, order, waiting, generation, inFlight, flightId, superseded, recount,
              refusals, nextRefusal, nextFlight, Blobs(), journal)
    }

    ghost function Blobs(): M.Ledger
      reads this
    {
      M.Ledger(held, pins, heldBytes)
    }

    constructor (maxHeldBytes: nat, journal: set<Key>)
      ensures View() == M.Empty(maxHeldBytes, journal)
    {
      this.maxHeldBytes, journalling := maxHeldBytes, true;
      order, waiting, generation, inFlight, flightId := [], map[], map[], {}, map[];
      superseded, recount, refusals, nextRefusal, nextFlight := {}, {}, map[], 1, 1;
      pins, held, heldBytes := map[], map[], 0;
      this.journal := journal;
    }

    method DropHeld(k: Key)
      modifies this`held, this`pins, this`heldBytes
      ensures View() == old(View()).(ledger := M.DropHeld(old(View()).ledger, k))
    {
      if k !in held {
        return;
      }
      if k in pins && pins[k].blob == held[k] && !pins[k].countedOutsideHeld {
        pins := pins[k := pins[k].(countedOutsideHeld := true)];
      } else {
        heldBytes := heldBytes - held[k].Size();
      }
      held := held - {k};
    }

    method ReleaseFlightPin(k: Key)
      modifies this`pins, this`heldBytes
      ensures Blobs() == M.ReleasePin(old(Blobs()), k)
    {
      if k !in pins {
        return;
      }
      if pins[k].countedOutsideHeld {
        heldBytes := heldBytes - pins[k].blob.Size();
      }
      pins := pins - {k};
    }

    method RemoveJournal(k: Key)
      modifies this`journal
      ensures journal == M.Unjournalled(old(View()), k)
    {
      if journalling {
        journal := journal - {k};
      }
    }

    method RemoveFromOrder(k: Key)
      modifies this`order
      ensures order == M.Without(old(order), k)
    {
      var kept: seq<Key> := [];
      var i := 0;
      while i < |order|
        invariant 0 <= i <= |order|
        invariant kept + M.Without(order[i..], k) == M.Without(order, k)
        modifies {}
      {
        assert order[i..][1..] == order[i + 1..];
        if order[i] != k {
          kept := kept + [order[i]];
        }
        i := i + 1;
      }
      assert order[i..] == [];
      order := kept;
    }

    method ForgetQueued(k: Key)
      modifies this`waiting, this`order, this`held, this`pins, this`heldBytes, this`generation, this`journal
      ensures View() == M.ForgetQueued(old(View()), k)
    {
      waiting := waiting - {k};
      RemoveFromOrder(k);
      generation := generation - {k};
      RemoveJournal(k);
      DropHeld(k);
    }

    method OvertakeRefusals(k: Key)
      modifies this`refusals
      ensures refusals == M.Overtaken(old(refusals), k)
    {
      var todo := refusals.Keys;
      while todo != {}
        invariant todo <= refusals.Keys == old(refusals).Keys
        invariant forall id :: id in todo ==> refusals[id] == old(refusals)[id]
        invariant forall id :: id in refusals.Keys - todo ==> refusals[id] == M.Overtaken(old(refusals), k)[id]
        decreases |todo|
      {
        var id :| id in todo;
        if refusals[id].key == k {
          refusals := refusals[id := refusals[id].(overtaken := true)];
        }
        todo := todo - {id};
      }
    }

    method SupersedeInFlight(k: Key) returns (id: nat)
      modifies this`refusals, this`nextRefusal, this`generation, this`superseded, this`held, this`pins, this`heldBytes
      ensures View() == M.Supersede(old(View()), k)
      ensures id == old(nextRefusal)
    {
      AddRefusal(k);
      id := nextRefusal - 1;
      generation := generation[k := (if k in generation then generation[k] else 0) + 1];
      superseded := superseded + {k};
      DropHeld(k);
    }

    /** A new refusal for the key's flight, which overtakes the older ones. */
    method AddRefusal(k: Key)
      modifies this`refusals, this`nextRefusal
      ensures refusals == M.Overtaken(old(refusals), k)[old(nextRefusal) := M.Refusal(k, M.FlightId(View(), k), false)]
      ensures nextRefusal == old(nextRefusal) + 1
    {
      OvertakeRefusals(k);
      var flight := if k in flightId then flightId[k] else 0;
      refusals := refusals[nextRefusal := M.Refusal(k, flight, false)];
      nextRefusal := nextRefusal + 1;
    }

    method MarkInFlight(k: Key)
      modifies this`inFlight, this`flightId, this`nextFlight
      ensures View() == M.MarkInFlight(old(View()), k)
    {
      inFlight := inFlight + {k};
      flightId := flightId[k := nextFlight];
      nextFlight := nextFlight + 1;
    }

    method BeginSync(k: Key) returns (gen: nat)
      modifies this
      ensures (View(), gen) == M.BeginSync(old(View()), k)
      ensures gen == 0 <==> k in old(inFlight)
    {
      if k in inFlight {
        return 0;
      }
      gen := (if k in generation then generation[k] else 0) + 1;
      generation := generation[k := gen];
      MarkInFlight(k);
    }

    method WatchFlight(k: Key) returns (id: nat)
      modifies this
      ensures (View(), id) == M.WatchFlight(old(View()), k)
    {
      if k !in flightId {
        return 0;
      }
      id := nextRefusal;
      nextRefusal := nextRefusal + 1;
      refusals := refusals[id := M.Refusal(k, flightId[k], false)];
    }

    method RefusalStillInFlight(id: nat) returns (flying: bool)
      ensures flying <==> M.RefusalStillInFlight(View(), id)
    {
      if id !in refusals || refusals[id].key !in flightId {
        return false;
      }
      flying := flightId[refusals[id].key] == refusals[id].flightId;
    }

    method TakeRefusal(id: nat) returns (overtaken: bool)
      modifies this
      ensures (View(), overtaken) == M.TakeRefusal(old(View()), id)
    {
      if id !in refusals {
        return false;
      }
      overtaken := refusals[id].overtaken;
      refusals := refusals - {id};
    }

    method Enqueue(k: Key, blob: Option<M.Blob>, journalIt: bool)
      returns (accepted: bool, merged: bool, flying: bool, refusalId: nat, droppedWaiting: bool)
      modifies this
      ensures View() == M.Enqueue(old(View()), k, blob, journalIt)
      ensures accepted == !M.Refuses(old(View()), k, blob)
      ensures M.Accounted(old(View())) ==> (accepted <==> !M.TooMuch(old(View()), k, blob))
      ensures merged == (accepted && k in old(waiting)) && flying == (k in old(inFlight))
      ensures !accepted && flying ==> refusalId == old(nextRefusal)
      ensures droppedWaiting == (!accepted && !flying && k in old(waiting))
    {
      RefusedWhenTooMuch(k, blob);
      merged, droppedWaiting, refusalId := false, false, 0;
      flying := k in inFlight;
      var wasWaiting := k in waiting;
      if blob.Some? {
        var replaced := if k in held then held[k].Size() else 0;
        var stays := k in held && flying && k in pins && pins[k].blob == held[k] && !pins[k].countedOutsideHeld;
        var next := heldBytes - (if stays then 0 else replaced) + blob.value.Size();
        if next > maxHeldBytes {
          if flying {
            refusalId := SupersedeInFlight(k);
          } else if wasWaiting || k in held {
            ForgetQueued(k);
            droppedWaiting := wasWaiting;
          }
          return false, merged, flying, refusalId, droppedWaiting;
        }
      }
      accepted, merged := true, wasWaiting;
      AcceptStore(k, blob, journalIt);
    }

    lemma RefusedWhenTooMuch(k: Key, blob: Option<M.Blob>)
      ensures M.Accounted(View()) ==> (M.Refuses(View(), k, blob) <==> M.TooMuch(View(), k, blob))
    {
      if M.Accounted(View()) {
        M.RefusesExactly(View(), k, blob);
      }
    }

    /** Replaces what is held for `k`. */
    method HoldBlob(k: Key, blob: Option<M.Blob>)
      modifies this`held, this`pins, this`heldBytes
      ensures Blobs() == M.Hold(old(Blobs()), k, blob)
    {
      DropHeld(k);
      if blob.Some? {
        held := held[k := blob.value];
        heldBytes := heldBytes + blob.value.Size();
      }
    }

    /** The accepting half of Enqueue. */
    method AcceptStore(k: Key, blob: Option<M.Blob>, journalIt: bool)
      modifies this
      ensures View() == M.Accept(old(View()), k, blob, journalIt)
    {
      Renew(k);
      HoldBlob(k, blob);
      if journalIt && journalling {
        journal := journal + {k};
      }
      if k !in inFlight {
        QueueUp(k, blob, generation[k]);
      }
    }

    method Renew(k: Key)
      modifies this`refusals, this`superseded, this`recount, this`generation
      ensures View() == M.Renew(old(View()), k)
    {
      OvertakeRefusals(k);
      superseded := superseded - {k};
      if k in inFlight {
        recount := recount + {k};
      }
      generation := generation[k := (if k in generation then generation[k] else 0) + 1];
    }

    method QueueUp(k: Key, blob: Option<M.Blob>, gen: nat)
      modifies this`waiting, this`order
      ensures View() == M.QueueUp(old(View()), k, blob, gen)
    {
      if k in waiting {
        waiting := waiting[k := waiting[k].(generation := gen, blob := blob)];
      } else {
        waiting := waiting[k := M.Item(k, blob, gen, 0, 0)];
        order := order + [k];
      }
    }

    /** `soonest` is the earliest retry among the waiting items when nothing is ready. */
    method TakeReady(now: int) returns (item: Option<M.Item>, soonest: Option<int>)
      modifies this
      ensures (View(), item) == M.TakeReady(old(View()), now)
      ensures item.None? ==>
                && (forall k :: k in old(order) && k in old(waiting) ==>
                      soonest.Some? && soonest.value <= old(waiting)[k].notBefore)
                && (soonest.Some? ==>
                      exists k :: k in old(order) && k in old(waiting) && old(waiting)[k].notBefore == soonest.value)
    {
      soonest := None;
      var i := 0;
      while i < |order| && !(order[i] in waiting && waiting[order[i]].notBefore <= now)
        invariant 0 <= i <= |order|
        invariant M.FirstReady(View(), i, now) == M.FirstReady(View(), 0, now)
        invariant forall j :: 0 <= j < i && order[j] in waiting ==>
                    soonest.Some? && soonest.value <= waiting[order[j]].notBefore
        invariant soonest.Some? ==>
                    exists j :: 0 <= j < i && order[j] in waiting && waiting[order[j]].notBefore == soonest.value
        modifies {}
      {
        if order[i] in waiting {
          var at := waiting[order[i]].notBefore;
          if soonest.None? || at < soonest.value {
            soonest := Some(at);
          }
        }
        i := i + 1;
      }
      if i == |order| {
        return None, soonest;
      }
      var k := order[i];
      order := order[..i] + order[i + 1..];
      var taken := waiting[k];
      waiting := waiting - {k};
      MarkInFlight(taken.key);
      if taken.blob.Some? {
        pins := pins[taken.key := M.Pin(taken.blob.value, false)];
      }
      item := Some(taken);
    }

    method Forget(k: Key)
      modifies this`superseded, this`recount, this`held, this`pins, this`heldBytes, this`generation, this`journal
      ensures View() == M.Forget(old(View()), k)
    {
      superseded := superseded - {k};
      recount := recount - {k};
      generation := generation - {k};
      RemoveJournal(k);
      DropHeld(k);
    }

    method Land(k: Key)
      modifies this
      ensures View() == M.Land(old(View()), k)
    {
      inFlight := inFlight - {k};
      flightId := flightId - {k};
      ReleaseFlightPin(k);
    }

    method Finish(item: M.Item) returns (requeued: bool, countRequeue: bool)
      modifies this
      ensures (View(), requeued, countRequeue) == M.Finish(old(View()), item)
    {
      Land(item.key);
      if item.key in superseded {
        Forget(item.key);
        return false, false;
      }
      if item.key in generation && generation[item.key] != item.generation {
        var again := M.Item(item.key, Lookup(held, item.key), generation[item.key], 0, 0);
        waiting := waiting[again.key := again];
        order := order + [again.key];
        countRequeue := item.key in recount;
        recount := recount - {item.key};
        return true, countRequeue;
      }
      Forget(item.key);
      return false, false;
    }

    method Requeue(item: M.Item) returns (dropped: bool)
      modifies this
      ensures (View(), dropped) == M.Requeue(old(View()), item)
    {
      Land(item.key);
      if item.key in superseded {
        Forget(item.key);
        return true;
      }
      var retry := item;
      if item.key in generation && generation[item.key] != item.generation {
        retry := item.(generation := generation[item.key], attempts := 0, blob := Lookup(held, item.key));
      }
      waiting := waiting[item.key := retry];
      order := order + [item.key];
      return false;
    }
  }
}
