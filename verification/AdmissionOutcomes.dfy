/** What becomes of a request for memory, and what the daemon has learnt when it decides. */
module AdmissionOutcomes {
  import opened Common
  import opened AdmissionModel

  // ---- one round of granting -------------------------------------------------------

  /** The session hung up, or its deadline has come. */
  predicate Over(w: Waiter, p: Poll) {
    p.gone || (w.deadline.Some? && w.deadline.value <= p.now)
  }

  /** A fresh reservation for a request: its estimate, or the peak known for its cost key if that is higher. */
  predicate Grants(r: Reservation, w: Waiter, peaks: map<string, u64>) {
    && r.costKey == w.costKey && r.realised == 0 && r.peak == 0 && !r.fallback
    && w.estimate <= r.estimate && (w.costKey in peaks ==> peaks[w.costKey] <= r.estimate)
    && (r.estimate == w.estimate || (w.costKey in peaks && r.estimate == peaks[w.costKey]))
  }

  /** What a round did with the i-th waiter, of which it took the first n. */
  ghost predicate Settled(s: State, poll: nat -> Poll, t: State, n: nat, i: nat)
    requires i < |s.waiters|
  {
    var w := s.waiters[i];
    && (w.session in t.reservations <==> i < n && !Over(w, poll(w.id)))
    && (w.session in t.reservations ==> Grants(t.reservations[w.session], w, s.peaks))
  }

  /** Reservations that were there stay as they were, and only waiters get new ones. */
  ghost predicate Extends(s: State, t: State) {
    && t.peaks == s.peaks
    && (forall x :: x in s.reservations ==> x in t.reservations && t.reservations[x] == s.reservations[x])
    && (forall x :: x in t.reservations && x !in s.reservations ==>
          && t.reservations[x].peak == 0 && !t.reservations[x].fallback
          && exists i :: 0 <= i < |s.waiters| && s.waiters[i].session == x)
  }

  lemma ExtendsTail(s: State, t: State)
    requires s.waiters != [] && Extends(s.(waiters := s.waiters[1..]), t)
    ensures Extends(s, t)
  {
    var u := s.(waiters := s.waiters[1..]);
    forall x | x in t.reservations && x !in s.reservations
      ensures exists i :: 0 <= i < |s.waiters| && s.waiters[i].session == x
    {
      var i :| 0 <= i < |u.waiters| && u.waiters[i].session == x;
      assert s.waiters[i + 1].session == x;
    }
  }

  lemma ExtendsAdmitted(s: State, w: Waiter, t: State)
    requires s.waiters != [] && w.session == s.waiters[0].session && Extends(Admit(s, w), t)
    ensures Extends(s, t)
  {
    var u := Admit(s, w);
    forall x | x in t.reservations && x !in s.reservations
      ensures t.reservations[x].peak == 0 && !t.reservations[x].fallback
      ensures exists i :: 0 <= i < |s.waiters| && s.waiters[i].session == x
    {
      if x == w.session {
        assert s.waiters[0].session == x;
      } else {
        var i :| 0 <= i < |u.waiters| && u.waiters[i].session == x;
        assert s.waiters[i + 1].session == x;
      }
    }
  }

  lemma {:induction false} RoundExtends(s: State, poll: nat -> Poll)
    ensures Extends(s, GrantWaiters(s, poll))
    decreases |s.waiters|
  {
    if s.waiters != [] && !s.stopped {
      var w := Raised(s.waiters[0], s.peaks);
      if Dropped(s.waiters[0], poll(s.waiters[0].id)) {
        RoundExtends(s.(waiters := s.waiters[1..]), poll);
        ExtendsTail(s, GrantWaiters(s, poll));
      } else if Fits(s, w) {
        RoundExtends(Admit(s, w), poll);
        ExtendsAdmitted(s, w, GrantWaiters(s, poll));
      }
    }
  }

  lemma SettledTail(s: State, u: State, poll: nat -> Poll, t: State, n: nat, i: nat)
    requires 0 < i < |s.waiters| && u.waiters == s.waiters[1..] && u.peaks == s.peaks
    requires Settled(u, poll, t, n, i - 1)
    ensures Settled(s, poll, t, n + 1, i)
  {
  }

  /** The first waiter's fate is decided first, and the rest of the round does not change it. */
  lemma HeadSettled(s: State, poll: nat -> Poll)
    requires Sound(s) && s.waiters != [] && !s.stopped
    ensures Settled(s, poll, GrantWaiters(s, poll), Consumed(s, poll), 0)
  {
    var w := Raised(s.waiters[0], s.peaks);
    if Dropped(s.waiters[0], poll(s.waiters[0].id)) {
      RoundExtends(s.(waiters := s.waiters[1..]), poll);
    } else if Fits(s, w) {
      RoundExtends(Admit(s, w), poll);
    }
  }

  /**
   A round of granting settles the waiters it takes: one that hung up or whose deadline has
   come gets nothing; every other gets a reservation for its estimate, or for the peak
   remembered for its cost key if that is higher. The waiters it does not take get nothing.
   */
  lemma {:induction false} RoundSettles(s: State, poll: nat -> Poll, i: nat)
    requires Sound(s) && !s.stopped && i < |s.waiters|
    ensures Settled(s, poll, GrantWaiters(s, poll), Consumed(s, poll), i)
    decreases |s.waiters|
  {
    if i == 0 {
      HeadSettled(s, poll);
    } else {
      var w := Raised(s.waiters[0], s.peaks);
      if Dropped(s.waiters[0], poll(s.waiters[0].id)) {
        var u := s.(waiters := s.waiters[1..]);
        RoundSettles(u, poll, i - 1);
        SettledTail(s, u, poll, GrantWaiters(u, poll), Consumed(u, poll), i);
      } else if Fits(s, w) {
        var u := Admit(s, w);
        AdmitSound(s, w);
        RoundSettles(u, poll, i - 1);
        SettledTail(s, u, poll, GrantWaiters(u, poll), Consumed(u, poll), i);
      }
    }
  }

  // ---- what a sample moves ---------------------------------------------------------

  /**
   A measurement counts against the estimate only together with a fresh MemAvailable, which
   already lacks what was measured, or when there is no figure to be together with.
   */
  lemma SampleMovesSum(s: State, sample: Sample, readNow: bool)
    requires sample.session in s.reservations && !sample.released && sample.rss.Some?
    ensures var r, rss := s.reservations[sample.session], sample.rss.value;
            var left := if rss >= r.estimate then 0 else r.estimate - rss;
            Total(Unmet(ApplySample(s, sample, readNow).reservations)) == Total(Unmet(s.reservations))
            + (if readNow || !s.known || r.fallback then left - Unrealised(r) else 0)
  {
    var x := sample.session;
    UnmetPut(s.reservations, x, Measured(s.reservations[x], sample.rss.value, readNow, s.known));
  }

  /** Samples of live, visible compilers free nothing until MemAvailable is read again. */
  lemma {:induction false} StaleSamplesFreeNothing(s: State, samples: seq<Sample>)
    requires s.known && (forall x :: x in s.reservations ==> !s.reservations[x].fallback)
    requires forall i :: 0 <= i < |samples| ==> !samples[i].released
    ensures AvailableKb(ApplySamples(s, samples, false)) == AvailableKb(s)
    decreases |samples|
  {
    if samples != [] {
      if samples[0].session in s.reservations && samples[0].rss.Some? {
        SampleMovesSum(s, samples[0], false);
      }
      StaleSamplesFreeNothing(ApplySample(s, samples[0], false), samples[1..]);
    }
  }

  // ---- what was asked and what was measured ----------------------------------------

  datatype Request = Request(session: nat, costKey: string, estimate: u64, deadline: int)

  /**
   What happened in a run: the requests that joined the queue, in order; what has been
   measured of each open reservation while its compiler could be seen; the open ones whose
   compiler cannot be; and what was measured of reservations that have ended, by cost key.
   */
  datatype History = History(
    asked: seq<Request>, open: map<nat, set<u64>>, hidden: set<nat>, closed: set<(string, u64)>)

  function NoHistory(): History { History([], map[], {}, {}) }

  function Ended(h: History, reservations: map<nat, Reservation>, x: nat): History {
    if x !in reservations || x !in h.open then h
    else History(h.asked, h.open - {x}, h.hidden - {x},
                 h.closed + set v | v in h.open[x] :: (reservations[x].costKey, v))
  }

  function Sampled(h: History, s: State, sample: Sample): History {
    var x := sample.session;
    if x !in s.reservations || x !in h.open then h
    else if sample.released then Ended(h, s.reservations, x)
    else if sample.rss.Some? && x !in h.hidden then
      h.(open := h.open[x := h.open[x] + {sample.rss.value}])
    else h
  }

  function AllSampled(h: History, s: State, samples: seq<Sample>, readNow: bool): History
    decreases |samples|
  {
    if samples == [] then h
    else AllSampled(Sampled(h, s, samples[0]), ApplySample(s, samples[0], readNow), samples[1..], readNow)
  }

  /** Nothing has been measured yet of a new reservation. */
  function Opened(h: History, reservations: map<nat, Reservation>): History {
    h.(open := map x | x in reservations :: if x in h.open then h.open[x] else {})
  }

  function Asked(h: History, s: State, step: Step): History {
    if step.ReserveStep? && step.session !in s.reservations then
      var estimate := if step.requested == 0 then step.default else step.requested;
      h.(asked := h.asked + [Request(step.session, step.costKey, estimate, step.deadline)])
    else h
  }

  ghost function NextHistory(h: History, s: State, step: Step, poll: nat -> Poll): History {
    match step
    case ReserveStep(_, _, _, _, _) => Opened(Asked(h, s, step), Next(s, step, poll).reservations)
    case UpdateStep(available, samples) =>
      if s.stopped then h
      else
        var s1 := if available.Some? then s.(available := available.value, known := true) else s;
        Opened(AllSampled(h, s1, samples, available.Some?), Next(s, step, poll).reservations)
    case TimeOutStep(_) => Opened(h, Next(s, step, poll).reservations)
    case CloseStep(x) => Opened(Ended(h, s.reservations, x), Next(s, step, poll).reservations)
    case SpawnedStep(x, visible) =>
      if x !in s.reservations || s.stopped then h
      else h.(hidden := if visible then h.hidden - {x} else h.hidden + {x})
    case ShutdownStep => h.(open := map[], hidden := {})
  }

  ghost function HistoryOf(h: History, s: State, steps: seq<(Step, nat -> Poll)>): History
    decreases |steps|
  {
    if steps == [] then h
    else HistoryOf(NextHistory(h, s, steps[0].0, steps[0].1), Next(s, steps[0].0, steps[0].1), steps[1..])
  }

  // ---- the peaks are what was measured ---------------------------------------------

  /** `peak` is the highest of the figures, or zero if there is none above it. */
  predicate Highest(peak: u64, figures: set<u64>) {
    (forall v :: v in figures ==> v <= peak) && (peak == 0 || peak in figures)
  }

  ghost predicate OpenMatch(h: History, reservations: map<nat, Reservation>) {
    && h.open.Keys == reservations.Keys && h.hidden <= h.open.Keys
    && forall x :: x in reservations ==>
         Highest(reservations[x].peak, h.open[x]) && (reservations[x].fallback <==> x in h.hidden)
  }

  /** A cost key has a peak once something was measured under it, and it is the highest figure. */
  ghost predicate KeyMatches(closed: set<(string, u64)>, peaks: map<string, u64>, c: string) {
    && (c !in peaks ==> forall v :: (c, v) in closed ==> v == 0)
    && (c in peaks ==> (c, peaks[c]) in closed && peaks[c] > 0 && forall v :: (c, v) in closed ==> v <= peaks[c])
  }

  ghost predicate PeaksMatch(h: History, peaks: map<string, u64>) {
    forall c :: KeyMatches(h.closed, peaks, c)
  }

  ghost predicate Matches(h: History, s: State) {
    OpenMatch(h, s.reservations) && PeaksMatch(h, s.peaks)
  }

  lemma EndKey(h: History, s: State, x: nat, c: string)
    requires Matches(h, s) && x in s.reservations
    ensures KeyMatches(Ended(h, s.reservations, x).closed, Free(s, x).peaks, c)
  {
    var r, figures := s.reservations[x], h.open[x];
    var closed := Ended(h, s.reservations, x).closed;
    assert Highest(r.peak, figures) && KeyMatches(h.closed, s.peaks, c);
    assert forall v :: (c, v) in closed <==> (c, v) in h.closed || (c == r.costKey && v in figures);
  }

  lemma EndMatches(h: History, s: State, x: nat)
    requires Matches(h, s)
    ensures Matches(Ended(h, s.reservations, x), Free(s, x))
  {
    if x in s.reservations {
      forall c ensures KeyMatches(Ended(h, s.reservations, x).closed, Free(s, x).peaks, c) {
        EndKey(h, s, x, c);
      }
    }
  }

  lemma SampleMatches(h: History, s: State, sample: Sample, readNow: bool)
    requires Matches(h, s)
    ensures Matches(Sampled(h, s, sample), ApplySample(s, sample, readNow))
  {
    EndMatches(h, s, sample.session);
  }

  lemma {:induction false} SamplesMatch(h: History, s: State, samples: seq<Sample>, readNow: bool)
    requires Matches(h, s)
    ensures Matches(AllSampled(h, s, samples, readNow), ApplySamples(s, samples, readNow))
    decreases |samples|
  {
    if samples != [] {
      SampleMatches(h, s, samples[0], readNow);
      SamplesMatch(Sampled(h, s, samples[0]), ApplySample(s, samples[0], readNow), samples[1..], readNow);
    }
  }

  lemma RoundMatches(h: History, s: State, poll: nat -> Poll)
    requires Matches(h, s)
    ensures Matches(Opened(h, GrantWaiters(s, poll).reservations), GrantWaiters(s, poll))
  {
    RoundExtends(s, poll);
  }

  lemma SpawnedMatches(h: History, s: State, x: nat, visible: bool, poll: nat -> Poll)
    requires Matches(h, s)
    ensures Matches(NextHistory(h, s, SpawnedStep(x, visible), poll), Spawned(s, x, visible))
  {
  }

  lemma StepMatches(h: History, s: State, step: Step, poll: nat -> Poll)
    requires Matches(h, s)
    ensures Matches(NextHistory(h, s, step, poll), Next(s, step, poll))
  {
    match step
    case ReserveStep(x, c, requested, default, deadline) =>
      if x in s.reservations {
        assert Opened(h, s.reservations).open == h.open;
      } else {
        var estimate := if requested == 0 then default else requested;
        var w := Waiter(s.arrivals, x, c, estimate, None);
        RoundMatches(Asked(h, s, step), s.(waiters := s.waiters + [w], arrivals := s.arrivals + 1), poll);
      }
    case UpdateStep(available, samples) =>
      if !s.stopped {
        var s1 := if available.Some? then s.(available := available.value, known := true) else s;
        SamplesMatch(h, s1, samples, available.Some?);
        RoundMatches(AllSampled(h, s1, samples, available.Some?), ApplySamples(s1, samples, available.Some?), poll);
      }
    case TimeOutStep(id) =>
      RoundMatches(h, s.(waiters := Without(s.waiters, (w: Waiter) => w.id == id)), poll);
    case CloseStep(x) =>
      var s1 := s.(waiters := Without(s.waiters, (w: Waiter) => w.session == x));
      EndMatches(h, s1, x);
      RoundMatches(Ended(h, s.reservations, x), Free(s1, x), poll);
    case SpawnedStep(x, visible) => SpawnedMatches(h, s, x, visible, poll);
    case ShutdownStep =>
  }

  // ---- the queue is what was asked -------------------------------------------------

  /** A waiter is a request of the run, with its deadline; its estimate can only have been raised. */
  ghost predicate IsAsked(asked: seq<Request>, w: Waiter) {
    && w.id < |asked|
    && w.session == asked[w.id].session && w.costKey == asked[w.id].costKey
    && w.estimate >= asked[w.id].estimate
    && (w.deadline.Some? ==> w.deadline.value == asked[w.id].deadline)
  }

  ghost predicate AllAsked(asked: seq<Request>, s: State) {
    |asked| == s.arrivals && forall w :: w in s.waiters ==> IsAsked(asked, w)
  }

  ghost predicate Bounded(waiters: seq<Waiter>) {
    forall w :: w in waiters ==> w.deadline.Some?
  }

  lemma {:induction false} RoundAsked(asked: seq<Request>, s: State, poll: nat -> Poll)
    requires AllAsked(asked, s)
    ensures AllAsked(asked, GrantWaiters(s, poll))
    ensures forall w :: w in GrantWaiters(s, poll).waiters ==>
              exists v :: v in s.waiters && v.id == w.id && v.deadline == w.deadline
    decreases |s.waiters|
  {
    if s.waiters != [] && !s.stopped {
      var w := Raised(s.waiters[0], s.peaks);
      if Dropped(s.waiters[0], poll(s.waiters[0].id)) {
        RoundAsked(asked, s.(waiters := s.waiters[1..]), poll);
      } else if Fits(s, w) {
        RoundAsked(asked, Admit(s, w), poll);
      } else {
        assert forall v :: v in s.waiters[1..] ==> v in s.waiters;
        assert s.waiters[0] in s.waiters;
      }
    }
  }

  ghost predicate Queued(asked: seq<Request>, s: State) {
    AllAsked(asked, s) && Bounded(s.waiters)
  }

  lemma RoundQueued(asked: seq<Request>, s: State, poll: nat -> Poll)
    requires Queued(asked, s)
    ensures Queued(asked, GrantWaiters(s, poll))
  {
    RoundAsked(asked, s, poll);
  }

  /** After a round, only the newcomer can be without a deadline, and it is the last. */
  lemma NewcomerLast(s: State, t: State, i: nat)
    requires Bounded(s.waiters) && (forall w :: w in s.waiters ==> w.id < s.arrivals)
    requires InOrder(t.waiters, t.grants, s.arrivals + 1) && i < |t.waiters| && t.waiters[i].deadline.None?
    requires forall w :: w in t.waiters && w.id != s.arrivals ==>
               exists v :: v in s.waiters && v.id == w.id && v.deadline == w.deadline
    ensures i == |t.waiters| - 1 && t.waiters[i].id == s.arrivals
  {
    assert t.waiters[i] in t.waiters;
    assert t.waiters[i].id == s.arrivals >= t.waiters[|t.waiters| - 1].id;
  }

  lemma DeadlineQueued(asked: seq<Request>, t: State, id: nat, deadline: int)
    requires AllAsked(asked, t) && id < |asked| && asked[id].deadline == deadline
    requires forall i :: 0 <= i < |t.waiters| && t.waiters[i].deadline.None? ==>
               i == |t.waiters| - 1 && t.waiters[i].id == id
    ensures Queued(asked, SetDeadline(t, id, deadline))
  {
    var u := SetDeadline(t, id, deadline);
    forall w | w in u.waiters ensures IsAsked(asked, w) && w.deadline.Some? {
      var i :| 0 <= i < |u.waiters| && u.waiters[i] == w;
      assert t.waiters[i] in t.waiters;
    }
  }

  lemma JoinAsked(asked: seq<Request>, s: State, r: Request)
    requires Queued(asked, s)
    ensures var w := Waiter(s.arrivals, r.session, r.costKey, r.estimate, None);
            AllAsked(asked + [r], s.(waiters := s.waiters + [w], arrivals := s.arrivals + 1))
  {
    assert forall id :: 0 <= id < |asked| ==> (asked + [r])[id] == asked[id];
  }

  lemma ReserveQueued(asked: seq<Request>, s: State, r: Request, poll: nat -> Poll)
    requires Inv(s) && Queued(asked, s) && r.session !in s.reservations && r.estimate > 0
    requires forall i :: 0 <= i < |s.waiters| ==> s.waiters[i].session != r.session
    ensures Queued(asked + [r], Reserve(s, r.session, r.costKey, r.estimate, r.deadline, poll))
  {
    var w := Waiter(s.arrivals, r.session, r.costKey, r.estimate, None);
    var s1 := s.(waiters := s.waiters + [w], arrivals := s.arrivals + 1);
    var t := GrantWaiters(s1, poll);
    JoinAsked(asked, s, r);
    RoundAsked(asked + [r], s1, poll);
    ArrivalSound(s, w);
    GrantKeeps(s1, poll);
    forall i | 0 <= i < |t.waiters| && t.waiters[i].deadline.None?
      ensures i == |t.waiters| - 1 && t.waiters[i].id == w.id
    {
      NewcomerLast(s, t, i);
    }
    DeadlineQueued(asked + [r], t, w.id, r.deadline);
  }

  lemma {:induction false} SamplesKeepQueue(s: State, samples: seq<Sample>, readNow: bool)
    ensures var t := ApplySamples(s, samples, readNow);
            t.waiters == s.waiters && t.arrivals == s.arrivals && t.stopped == s.stopped
    decreases |samples|
  {
    if samples != [] {
      SamplesKeepQueue(ApplySample(s, samples[0], readNow), samples[1..], readNow);
    }
  }

  lemma {:induction false} SamplesKeepAsked(h: History, s: State, samples: seq<Sample>, readNow: bool)
    ensures AllSampled(h, s, samples, readNow).asked == h.asked
    decreases |samples|
  {
    if samples != [] {
      SamplesKeepAsked(Sampled(h, s, samples[0]), ApplySample(s, samples[0], readNow), samples[1..], readNow);
    }
  }

  lemma WithoutQueued(asked: seq<Request>, s: State, leaves: Waiter -> bool)
    requires Queued(asked, s)
    ensures Queued(asked, s.(waiters := Without(s.waiters, leaves)))
  {
    WithoutExactly(s.waiters, leaves);
  }

  lemma StepQueued(h: History, s: State, step: Step, poll: nat -> Poll)
    requires Inv(s) && Enabled(s, step) && Queued(h.asked, s)
    ensures Queued(NextHistory(h, s, step, poll).asked, Next(s, step, poll))
  {
    match step
    case ReserveStep(x, c, requested, default, deadline) =>
      if x !in s.reservations {
        var estimate := if requested == 0 then default else requested;
        ReserveQueued(h.asked, s, Request(x, c, estimate, deadline), poll);
      }
    case UpdateStep(available, samples) =>
      if !s.stopped {
        var s1 := if available.Some? then s.(available := available.value, known := true) else s;
        SamplesKeepQueue(s1, samples, available.Some?);
        SamplesKeepAsked(h, s1, samples, available.Some?);
        RoundQueued(h.asked, ApplySamples(s1, samples, available.Some?), poll);
      }
    case TimeOutStep(id) =>
      WithoutQueued(h.asked, s, (w: Waiter) => w.id == id);
      RoundQueued(h.asked, s.(waiters := Without(s.waiters, (w: Waiter) => w.id == id)), poll);
    case CloseStep(x) =>
      WithoutQueued(h.asked, s, (w: Waiter) => w.session == x);
      RoundQueued(h.asked, Free(s.(waiters := Without(s.waiters, (w: Waiter) => w.session == x)), x), poll);
    case SpawnedStep(_, _) =>
    case ShutdownStep =>
  }

  lemma {:induction false} RunMatches(h: History, s: State, steps: seq<(Step, nat -> Poll)>)
    requires Inv(s) && Matches(h, s) && Queued(h.asked, s) && IsRun(s, steps)
    ensures Matches(HistoryOf(h, s, steps), After(s, steps))
    ensures Queued(HistoryOf(h, s, steps).asked, After(s, steps))
    decreases |steps|
  {
    if steps != [] {
      var (step, poll) := steps[0];
      StepKeeps(s, step, poll);
      StepMatches(h, s, step, poll);
      StepQueued(h, s, step, poll);
      RunMatches(NextHistory(h, s, step, poll), Next(s, step, poll), steps[1..]);
    }
  }

  /**
   In every run: the peak remembered for a cost key is the highest figure measured of a
   reservation of that key that has ended, while its processes could be seen, and there is
   none if nothing was; and every waiter is a request as it was made, with the deadline it
   was made with, its estimate at most raised.
   */
  lemma PeaksAreMeasured(steps: seq<(Step, nat -> Poll)>)
    requires IsRun(Init(), steps)
    ensures var s, h := After(Init(), steps), HistoryOf(NoHistory(), Init(), steps);
            && (forall c :: KeyMatches(h.closed, s.peaks, c))
            && (forall w :: w in s.waiters ==> IsAsked(h.asked, w) && w.deadline.Some?)
  {
    RunMatches(NoHistory(), Init(), steps);
  }
}
