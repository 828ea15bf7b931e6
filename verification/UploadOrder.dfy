/** Which upload a worker takes: of those whose time has come, the one that has waited longest. */
module UploadOrder {
  import opened Common
  import opened UploadQueueModel
  import opened UploadRuns

  /** When each waiting key began its present wait, as the number of the step that queued it. */
  function NextSince(s: Sys, step: Step, n: nat, since: map<Key, nat>): map<Key, nat>
    requires Enabled(s, step)
  {
    map k | k in Next(s, step).q.waiting :: if k in s.q.waiting && k in since then since[k] else n
  }

  ghost function SinceOf(s: Sys, steps: seq<Step>, n: nat, since: map<Key, nat>): map<Key, nat>
    requires IsRun(s, steps)
    decreases |steps|
  {
    if steps == [] then since
    else SinceOf(Next(s, steps[0]), steps[1..], n + 1, NextSince(s, steps[0], n, since))
  }

  // ---- the queue's order -----------------------------------------------------------

  ghost predicate Ahead(order: seq<Key>, a: Key, b: Key) {
    exists i, j :: 0 <= i < j < |order| && order[i] == a && order[j] == b
  }

  /** The new order has nothing ahead of a key that was not ahead of it, and new keys come last. */
  ghost predicate Continues(order: seq<Key>, order': seq<Key>) {
    forall a, b :: Ahead(order', a, b) ==> Ahead(order, a, b) || (a in order && b !in order)
  }

  lemma PushContinues(order: seq<Key>, k: Key)
    requires k !in order
    ensures Continues(order, order + [k])
  {
    var order' := order + [k];
    forall a, b | Ahead(order', a, b) ensures Ahead(order, a, b) || (a in order && b !in order) {
      var i, j :| 0 <= i < j < |order'| && order'[i] == a && order'[j] == b;
      assert order[i] == a;
      assert j < |order| ==> order[j] == b;
    }
  }

  lemma {:induction false} WithoutContinues(order: seq<Key>, k: Key)
    ensures forall a :: a in Without(order, k) ==> a in order
    ensures forall a, b :: Ahead(Without(order, k), a, b) ==> Ahead(order, a, b)
  {
    if order != [] {
      var rest := order[1..];
      WithoutContinues(rest, k);
      forall a, b | Ahead(Without(order, k), a, b) ensures Ahead(order, a, b) {
        AheadOfFirst(order, k, a, b);
      }
    }
  }

  lemma AheadOfFirst(order: seq<Key>, k: Key, a: Key, b: Key)
    requires order != [] && Ahead(Without(order, k), a, b)
    requires forall x :: x in Without(order[1..], k) ==> x in order[1..]
    requires Ahead(Without(order[1..], k), a, b) ==> Ahead(order[1..], a, b)
    ensures Ahead(order, a, b)
  {
    var rest, left, all := order[1..], Without(order[1..], k), Without(order, k);
    var i, j :| 0 <= i < j < |all| && all[i] == a && all[j] == b;
    if order[0] == k {
      assert all == left;
      AheadInTail(order, a, b);
    } else if i > 0 {
      assert left[i - 1] == a && left[j - 1] == b;
      AheadInTail(order, a, b);
    } else {
      assert b == left[j - 1] && b in rest;
      var n :| 0 <= n < |rest| && rest[n] == b;
      assert order[0] == a && order[n + 1] == b;
    }
  }

  lemma AheadInTail(order: seq<Key>, a: Key, b: Key)
    requires order != [] && Ahead(order[1..], a, b)
    ensures Ahead(order, a, b)
  {
    var i, j :| 0 <= i < j < |order[1..]| && order[1..][i] == a && order[1..][j] == b;
    assert order[i + 1] == a && order[j + 1] == b;
  }

  lemma TakeContinues(order: seq<Key>, n: nat)
    requires n < |order|
    ensures Continues(order, order[..n] + order[n + 1..])
  {
    var order' := order[..n] + order[n + 1..];
    forall a, b | Ahead(order', a, b) ensures Ahead(order, a, b) {
      var i, j :| 0 <= i < j < |order'| && order'[i] == a && order'[j] == b;
      var i', j' := if i < n then i else i + 1, if j < n then j else j + 1;
      assert order[i'] == a && order[j'] == b;
    }
  }

  lemma AcceptContinues(q: Queue, k: Key, blob: Option<Blob>, journal: bool)
    requires OrderOk(q.order, q.waiting)
    ensures Continues(q.order, Accept(q, k, blob, journal).order)
  {
    if k !in q.inFlight && k !in q.waiting {
      PushContinues(q.order, k);
    }
  }

  lemma RefuseContinues(q: Queue, k: Key)
    ensures Continues(q.order, Refuse(q, k).order)
  {
    WithoutContinues(q.order, k);
  }

  lemma RetireContinues(s: Sys, f: nat, retryAt: int)
    requires Inv(s) && f in s.flights
    ensures Continues(s.q.order, Next(s, Retire(f, retryAt)).q.order)
  {
    var k := s.flights[f].item.key;
    assert KeyOk(k, View(s, k)) && k !in s.q.order;
    PushContinues(s.q.order, k);
    RetireIs(s, f, retryAt);
  }

  lemma ResumeKeepsOrder(s: Sys, p: nat)
    requires p in s.puts
    ensures ResumePut(s, p).q.order == s.q.order
  {
    var (s1, overtaken) := TakeBack(s, p);
    assert s1.q.order == s.q.order;
    if !overtaken && s1.puts[p].key !in s1.q.inFlight {
      LaunchQueue(s1, p);
      SyncIsLaunch(s1, p);
    }
  }

  lemma StoreContinues(s: Sys, p: nat, k: Key, blob: Blob)
    requires Inv(s) && Enabled(s, StoreMemory(p, k, blob))
    ensures Continues(s.q.order, Next(s, StoreMemory(p, k, blob)).q.order)
  {
    if Refuses(s.q, k, Some(blob)) {
      RefuseContinues(s.q, k);
    } else {
      AcceptContinues(s.q, k, Some(blob), false);
    }
  }

  lemma TakeNextContinues(s: Sys, now: int)
    ensures Continues(s.q.order, TakeNext(s, now).q.order)
  {
    if FirstReady(s.q, 0, now) < |s.q.order| {
      TakeContinues(s.q.order, FirstReady(s.q, 0, now));
    }
  }

  lemma StepContinues(s: Sys, step: Step)
    requires Inv(s) && Enabled(s, step)
    ensures Continues(s.q.order, Next(s, step).q.order)
  {
    match step
    case StoreDisk(k) => AcceptContinues(s.q, k, None, true);
    case StoreMemory(p, k, blob) => StoreContinues(s, p, k, blob);
    case Resume(p) => ResumeKeepsOrder(s, p);
    case Take(now) => TakeNextContinues(s, now);
    case Retire(f, retryAt) => RetireContinues(s, f, retryAt);
    case Recover(k) => AcceptContinues(s.q, k, None, false);
    case _ =>
  }

  // ---- the order is that of the waits ----------------------------------------------

  ghost predicate ByWait(s: Sys, since: map<Key, nat>, n: nat) {
    && since.Keys == s.q.waiting.Keys && (forall k :: k in since ==> since[k] < n)
    && (forall a, b :: Ahead(s.q.order, a, b) && a in since && b in since ==> since[a] < since[b])
  }

  lemma StepByWait(s: Sys, step: Step, since: map<Key, nat>, n: nat)
    requires Inv(s) && Enabled(s, step) && ByWait(s, since, n)
    ensures ByWait(Next(s, step), NextSince(s, step, n, since), n + 1)
  {
    StepContinues(s, step);
  }

  lemma {:induction false} RunByWait(s: Sys, steps: seq<Step>, since: map<Key, nat>, n: nat)
    requires Inv(s) && IsRun(s, steps) && IsDisciplined(s, steps) && ByWait(s, since, n)
    ensures Inv(After(s, steps)) && ByWait(After(s, steps), SinceOf(s, steps, n, since), n + |steps|)
    decreases |steps|
  {
    if steps != [] {
      StepKeeps(s, steps[0]);
      StepByWait(s, steps[0], since, n);
      RunByWait(Next(s, steps[0]), steps[1..], NextSince(s, steps[0], n, since), n + 1);
    }
  }

  lemma FirstReadyIsFirst(q: Queue, now: int, k: Key)
    requires OrderOk(q.order, q.waiting) && k in q.waiting && q.waiting[k].notBefore <= now
    ensures var i := FirstReady(q, 0, now);
            i < |q.order| && (q.order[i] == k || Ahead(q.order, q.order[i], k))
  {
    var n :| 0 <= n < |q.order| && q.order[n] == k;
    assert Ready(q, n, now);
  }

  lemma LongestWaitTaken(s: Sys, since: map<Key, nat>, n: nat, now: int, k: Key)
    requires Inv(s) && ByWait(s, since, n) && k in s.q.waiting && s.q.waiting[k].notBefore <= now
    ensures var taken := TakeReady(s.q, now).1;
            && taken.Some? && taken.value.key in s.q.waiting && taken.value.notBefore <= now
            && taken.value == s.q.waiting[taken.value.key] && k in since && taken.value.key in since
            && (taken.value.key == k || since[taken.value.key] < since[k])
  {
    FirstReadyIsFirst(s.q, now, k);
    var first := s.q.order[FirstReady(s.q, 0, now)];
    assert KeyOk(first, View(s, first));
  }

  /**
   In every run, a worker that asks while any upload's time has come gets one: of all whose
   time has come, the one whose present wait began first.
   */
  lemma LongestWaitFirst(maxHeldBytes: nat, steps: seq<Step>, now: int, k: Key)
    requires IsRun(Init(maxHeldBytes), steps) && IsDisciplined(Init(maxHeldBytes), steps)
    ensures var s, since := After(Init(maxHeldBytes), steps), SinceOf(Init(maxHeldBytes), steps, 0, map[]);
            var taken := TakeReady(s.q, now).1;
            k in s.q.waiting && s.q.waiting[k].notBefore <= now ==>
              && taken.Some? && taken.value.key in s.q.waiting && taken.value.notBefore <= now
              && taken.value == s.q.waiting[taken.value.key]
              && k in since && taken.value.key in since
              && (taken.value.key == k || since[taken.value.key] < since[k])
  {
    InitKeeps(maxHeldBytes);
    RunByWait(Init(maxHeldBytes), steps, map[], 0);
    var s := After(Init(maxHeldBytes), steps);
    if k in s.q.waiting && s.q.waiting[k].notBefore <= now {
      LongestWaitTaken(s, SinceOf(Init(maxHeldBytes), steps, 0, map[]), |steps|, now, k);
    }
  }
}
