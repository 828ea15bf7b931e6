/**
 What a crash does to a key whose newest accepted store was kept in memory while
 an older one is on disk with its marker: recovery sends the older one, from
 every state a run can reach, and in one short run.
 */
module UploadCrashes {
  import opened Common
  import opened UploadQueueModel
  import opened UploadRaces
  import opened UploadRuns

  predicate NoResume(steps: seq<Step>) { forall i :: 0 <= i < |steps| ==> !steps[i].Resume? }

  /** Only a refused store that resumes can go against the discipline. */
  lemma {:induction false} NoResumeIsDisciplined(s: Sys, steps: seq<Step>)
    requires IsRun(s, steps) && NoResume(steps)
    ensures IsDisciplined(s, steps)
    decreases |steps|
  {
    if steps != [] {
      NoResumeIsDisciplined(Next(s, steps[0]), steps[1..]);
    }
  }

  lemma {:induction false} RunsJoin(s: Sys, a: seq<Step>, b: seq<Step>)
    requires IsRun(s, a) && IsRun(After(s, a), b)
    ensures IsRun(s, a + b) && After(s, a + b) == After(After(s, a), b)
    decreases |a|
  {
    if a == [] {
      assert a + b == b;
    } else {
      assert (a + b)[0] == a[0] && (a + b)[1..] == a[1..] + b;
      RunsJoin(Next(s, a[0]), a[1..], b);
    }
  }

  // ---- from every state ------------------------------------------------------------

  function RecoveredItem(k: Key): Item { Item(k, None, 1, 0, 0) }

  function Requeued(s: Sys, k: Key): Sys {
    var c := AfterCrash(s);
    c.(q := c.q.(order := [k], waiting := map[k := RecoveredItem(k)], generation := map[k := 1]),
       counters := Counters(1, 0, 0, 0), unrecovered := s.q.journal - {k})
  }

  function Resending(s: Sys, k: Key, value: Option<string>, landed: bool): Sys
    requires k in s.h.filed
  {
    var c := Requeued(s, k);
    c.(q := c.q.(order := [], waiting := map[], inFlight := {k}, flightId := map[k := 1], nextFlight := 2),
       flights := map[1 := Flight(RecoveredItem(k), false, s.h.filed[k], value, landed)],
       s3 := if landed && value.Some? then s.s3[k := value.value] else s.s3,
       h := if landed then c.h.(sentBy := c.h.sentBy[k := s.h.filed[k]]) else c.h)
  }

  function Resent(s: Sys, k: Key): Sys
    requires k in s.h.filed && k in s.disk
  {
    Resending(s, k, Some(s.disk[k]), true).(
      q := Empty(s.q.maxHeldBytes, s.q.journal - {k}).(nextFlight := 2),
      flights := map[], counters := Counters(1, 1, 0, 0))
  }

  lemma CrashLeads(s: Sys, k: Key)
    requires k in s.q.journal
    ensures Leads(s, Crash, AfterCrash(s)) && Leads(AfterCrash(s), Recover(k), Requeued(s, k))
  {
    var q, q' := AfterCrash(s).q, Accept(AfterCrash(s).q, k, None, false);
    assert q'.order == [k] && q'.waiting == map[k := RecoveredItem(k)] && q'.generation == map[k := 1];
    assert q' == q.(order := q'.order, waiting := q'.waiting, generation := q'.generation);
  }

  lemma RequeuedLeads(s: Sys, k: Key)
    requires k in s.h.filed
    ensures Leads(Requeued(s, k), Take(0), Resending(s, k, None, false))
  {
    var q := Requeued(s, k).q;
    assert Ready(q, 0, 0) && FirstReady(q, 0, 0) == 0;
    assert q.order[..0] + q.order[1..] == [];
    assert q.waiting - {k} == map[];
  }

  lemma ResendingLeads(s: Sys, k: Key)
    requires k in s.h.filed && k in s.disk
    ensures Leads(Resending(s, k, None, false), Load(1), Resending(s, k, Some(s.disk[k]), false))
    ensures Leads(Resending(s, k, Some(s.disk[k]), false), Send(1, true, true), Resending(s, k, Some(s.disk[k]), true))
  {
  }

  lemma ResentLeads(s: Sys, k: Key)
    requires k in s.h.filed && k in s.disk && s.q.journalling
    ensures Leads(Resending(s, k, Some(s.disk[k]), true), Retire(1, 0), Resent(s, k))
  {
  }

  function Restart(k: Key): seq<Step> { [Crash] + [Recover(k)] }

  /** A crash, the marker of `k` queued again, and an upload that succeeds. */
  function RecoveryRun(k: Key): seq<Step> {
    Restart(k) + [Take(0)] + [Load(1)] + [Send(1, true, true)] + [Retire(1, 0)]
  }

  lemma RestartLeads(s: Sys, k: Key)
    requires k in s.q.journal
    ensures IsRun(s, Restart(k)) && After(s, Restart(k)) == Requeued(s, k)
  {
    CrashLeads(s, k);
    Extend(s, [], Crash, AfterCrash(s));
    assert [] + [Crash] == [Crash];
    Extend(s, [Crash], Recover(k), Requeued(s, k));
  }

  lemma RecoveryRunLeads(s: Sys, k: Key)
    requires k in s.q.journal && k in s.h.filed && k in s.disk && s.q.journalling
    ensures IsRun(s, RecoveryRun(k)) && After(s, RecoveryRun(k)) == Resent(s, k)
  {
    var value, a := Some(s.disk[k]), Restart(k);
    RestartLeads(s, k);
    RequeuedLeads(s, k);
    ResendingLeads(s, k);
    ResentLeads(s, k);
    Extend(s, a, Take(0), Resending(s, k, None, false));
    Extend(s, a + [Take(0)], Load(1), Resending(s, k, value, false));
    Extend(s, a + [Take(0)] + [Load(1)], Send(1, true, true), Resending(s, k, value, true));
    Extend(s, a + [Take(0)] + [Load(1)] + [Send(1, true, true)], Retire(1, 0), Resent(s, k));
  }

  lemma RecoveryHasNoResume(k: Key)
    ensures NoResume(RecoveryRun(k))
  {
  }

  /**
   The newest accepted store of `k` is in S3 exactly when it went to disk.
   Otherwise the older one has replaced it, and nothing is left to repair that.
   */
  predicate DiskStoreWon(s: Sys, t: Sys, k: Key)
    requires k in s.latest && k in s.disk
  {
    && t.latest == s.latest && t.h.stamp == s.h.stamp && k in t.s3 && t.s3[k] == s.disk[k]
    && (Uploaded(t, k) <==> s.latest[k].Disk?)
    && (s.latest[k].Memory? ==> Overwritten(t, k) && k in t.lost)
  }

  lemma ResentMeans(s: Sys, k: Key)
    requires FiledOk(View(s, k)) && k in s.q.journal && k in s.latest && k in s.disk
    ensures k in s.h.filed && DiskStoreWon(s, Resent(s, k), k)
  {
    var t := Resent(s, k);
    assert t.s3 == s.s3[k := s.disk[k]] && t.h.sentBy == s.h.sentBy[k := s.h.filed[k]] && t.h.stamp == s.h.stamp;
    assert t.latest == s.latest && t.lost == AfterCrash(s).lost && t.q.waiting == map[] && t.q.inFlight == {};
  }

  /**
   The condition under which a crash keeps the newest accepted store is exact.
   From every state of a run, a crash, the recovery of a marked key and its
   upload leave that store in S3 if and only if it is the one that went to
   disk, even where another was in S3 already.
   */
  lemma RecoveryExactly(s: Sys, k: Key)
    requires Inv(s) && k in s.q.journal && k in s.latest && k in s.disk
    ensures IsRun(s, RecoveryRun(k)) && IsDisciplined(s, RecoveryRun(k))
    ensures DiskStoreWon(s, After(s, RecoveryRun(k)), k)
  {
    assert FiledOk(View(s, k)) by {
      assert KeyOk(k, View(s, k));
    }
    ResentMeans(s, k);
    RecoveryRunLeads(s, k);
    RecoveryHasNoResume(k);
    NoResumeIsDisciplined(s, RecoveryRun(k));
  }

  // ---- one run ---------------------------------------------------------------------

  /** A key stored on disk, and then again when the disk would not take it. */
  datatype Rewrite = Rewrite(cap: nat, k: Key, older: string, newer: Blob)

  function NewerItem(r: Rewrite): Item { Item(r.k, Some(r.newer), 2, 0, 0) }

  function OlderStored(r: Rewrite): Sys {
    var q := Empty(r.cap, {r.k}).(order := [r.k], waiting := map[r.k := Item(r.k, None, 1, 0, 0)],
                                  generation := map[r.k := 1]);
    Init(r.cap).(q := q, disk := map[r.k := r.older], counters := Counters(1, 0, 0, 0),
                 latest := map[r.k := Disk({r.older})],
                 h := History(1, map[r.k := 0], map[], map[r.k := Newest(0, None)], map[r.k := 0], {}))
  }

  function NewerStored(r: Rewrite): Sys {
    var s := OlderStored(r);
    s.(q := s.q.(waiting := map[r.k := NewerItem(r)], generation := map[r.k := 2],
                 ledger := Ledger(map[r.k := r.newer], map[], r.newer.Size())),
       latest := map[r.k := Memory(r.newer.bytes)],
       h := History(2, map[r.k := 1], map[], map[r.k := Newest(1, None)], map[r.k := 0], {}))
  }

  function NewerSending(r: Rewrite, landed: bool): Sys {
    var s := NewerStored(r);
    s.(q := s.q.(order := [], waiting := map[], inFlight := {r.k}, flightId := map[r.k := 1], nextFlight := 2,
                 ledger := Ledger(map[r.k := r.newer], map[r.k := Pin(r.newer, false)], r.newer.Size())),
       flights := map[1 := Flight(NewerItem(r), false, 1, Some(r.newer.bytes), landed)],
       s3 := if landed then map[r.k := r.newer.bytes] else map[],
       h := s.h.(sentBy := if landed then map[r.k := 1] else map[]))
  }

  function OnlyOnDisk(r: Rewrite): Sys { Init(r.cap).(disk := map[r.k := r.older]) }

  lemma OlderLeads(r: Rewrite)
    ensures Leads(Init(r.cap), DiskWrite(r.k, r.older), OnlyOnDisk(r))
    ensures Leads(OnlyOnDisk(r), StoreDisk(r.k), OlderStored(r))
  {
  }

  lemma NewerLeads(r: Rewrite)
    requires r.newer.Size() <= r.cap
    ensures Leads(OlderStored(r), StoreMemory(0, r.k, r.newer), NewerStored(r))
  {
  }

  lemma NewerTaken(r: Rewrite)
    ensures Leads(NewerStored(r), Take(0), NewerSending(r, false))
  {
    var q := NewerStored(r).q;
    assert Ready(q, 0, 0) && FirstReady(q, 0, 0) == 0;
    assert q.order[..0] + q.order[1..] == [];
  }

  lemma NewerSent(r: Rewrite)
    ensures Leads(NewerSending(r, false), Send(1, true, true), NewerSending(r, true))
  {
  }

  function BothSent(r: Rewrite): seq<Step> {
    [DiskWrite(r.k, r.older)] + [StoreDisk(r.k)] + [StoreMemory(0, r.k, r.newer)] + [Take(0)] + [Send(1, true, true)]
  }

  lemma BothSentLeads(r: Rewrite)
    requires r.newer.Size() <= r.cap
    ensures IsRun(Init(r.cap), BothSent(r)) && After(Init(r.cap), BothSent(r)) == NewerSending(r, true)
  {
    var s, a := Init(r.cap), [DiskWrite(r.k, r.older)] + [StoreDisk(r.k)];
    OlderLeads(r);
    NewerLeads(r);
    NewerTaken(r);
    NewerSent(r);
    Extend(s, [], DiskWrite(r.k, r.older), OnlyOnDisk(r));
    assert [] + [DiskWrite(r.k, r.older)] == [DiskWrite(r.k, r.older)];
    Extend(s, [DiskWrite(r.k, r.older)], StoreDisk(r.k), OlderStored(r));
    Extend(s, a, StoreMemory(0, r.k, r.newer), NewerStored(r));
    Extend(s, a + [StoreMemory(0, r.k, r.newer)], Take(0), NewerSending(r, false));
    Extend(s, a + [StoreMemory(0, r.k, r.newer)] + [Take(0)], Send(1, true, true), NewerSending(r, true));
  }

  /** Everything has drained by successful uploads, and S3 holds the older of two stores. */
  predicate OlderIsBack(s: Sys, r: Rewrite) {
    && AllSettled(s) && s.s3 == map[r.k := r.older] && s.latest == map[r.k := Memory(r.newer.bytes)]
    && r.k in s.h.newest && s.h.newest[r.k].arrival == 1 && Overwritten(s, r.k) && !Uploaded(s, r.k)
  }

  /**
   A store goes to disk; a newer one of the key, which the disk did not take, is
   queued in memory and reaches S3. A crash comes before that upload is
   finished. Recovery finds the marker of the older one and sends that.
   */
  lemma RecoveredRunOverwritesTheNewest(r: Rewrite)
    requires r.newer.Size() <= r.cap
    ensures IsRun(Init(r.cap), BothSent(r)) && Uploaded(After(Init(r.cap), BothSent(r)), r.k)
    ensures var steps := BothSent(r) + RecoveryRun(r.k);
            && IsRun(Init(r.cap), steps) && IsDisciplined(Init(r.cap), steps)
            && OlderIsBack(After(Init(r.cap), steps), r)
  {
    BothSentLeads(r);
    RecoveryRunLeads(NewerSending(r, true), r.k);
    RunsJoin(Init(r.cap), BothSent(r), RecoveryRun(r.k));
    RecoveryHasNoResume(r.k);
    NoResumeIsDisciplined(Init(r.cap), BothSent(r) + RecoveryRun(r.k));
    ResentIsBack(r);
  }

  lemma ResentIsBack(r: Rewrite)
    ensures OlderIsBack(Resent(NewerSending(r, true), r.k), r) && Uploaded(NewerSending(r, true), r.k)
  {
    assert {r.k} - {r.k} == {};
    assert NewerSending(r, true).s3[r.k := r.older] == map[r.k := r.older];
  }
}
