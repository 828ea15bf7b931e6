/**
 Memory admission: compiles reserve their estimated memory and queue, first come
 first served, while the machine cannot take them. Times and polled facts about
 sessions are inputs; every step is one critical section.
 */
module AdmissionModel {
  import opened Common

  const MAX_U64 := 0xFFFF_FFFF_FFFF_FFFF

  type u64 = n: nat | n <= MAX_U64

  /** A queued request. `id` is its arrival number, `session` the descriptor of its session. */
  datatype Waiter = Waiter(id: nat, session: nat, costKey: string, estimate: u64, deadline: Option<int>)

  datatype Reservation = Reservation(costKey: string, estimate: u64, realised: u64, peak: u64, fallback: bool)

  /** What the daemon sees when a waiter reaches the head of the queue. */
  datatype Poll = Poll(gone: bool, now: int)

  /** A grant as it happened: whether it was alone, and the memory figures it left behind. */
  datatype Grant = Grant(id: nat, alone: bool, metered: bool, unrealised: nat, available: nat)

  datatype Sample = Sample(session: nat, released: bool, rss: Option<u64>)

  datatype State = State(
    waiters: seq<Waiter>,
    reservations: map<nat, Reservation>,
    peaks: map<string, u64>,
    available: u64,
    known: bool,
    stopped: bool,
    arrivals: nat,
    grants: seq<Grant>)

  function Init(): State {
    State([], map[], map[], 0, false, false, 0, [])
  }

  // ---- memory figures --------------------------------------------------------------

  function Max(a: u64, b: u64): u64 { if a < b then b else a }

  function SaturatingAdd(a: u64, b: u64): u64 {
    if b > MAX_U64 - a then MAX_U64 else a + b
  }

  function Unrealised(r: Reservation): u64 {
    if r.realised >= r.estimate then 0 else r.estimate - r.realised
  }

  ghost function Unmet(reservations: map<nat, Reservation>): map<nat, nat> {
    map x | x in reservations :: Unrealised(reservations[x])
  }

  /** The saturating sum of what reservations may still take. */
  ghost function UnrealisedKb(reservations: map<nat, Reservation>): u64 {
    var t := Total(Unmet(reservations));
    if t > MAX_U64 then MAX_U64 else t
  }

  ghost function AvailableKb(s: State): u64 {
    var u := UnrealisedKb(s.reservations);
    if !s.known then MAX_U64 else if u >= s.available then 0 else s.available - u
  }

  lemma UnmetPut(reservations: map<nat, Reservation>, x: nat, r: Reservation)
    ensures Total(Unmet(reservations[x := r])) ==
            Total(Unmet(reservations)) - (if x in reservations then Unrealised(reservations[x]) else 0) + Unrealised(r)
  {
    TotalPut(Unmet(reservations), x, Unrealised(r));
    assert Unmet(reservations[x := r]) == Unmet(reservations)[x := Unrealised(r)];
  }

  // ---- granting --------------------------------------------------------------------

  predicate Dropped(w: Waiter, p: Poll) {
    p.gone || (w.deadline.Some? && p.now >= w.deadline.value)
  }

  /** A cost key that once peaked higher than the estimate is admitted at its peak. */
  function Raised(w: Waiter, peaks: map<string, u64>): Waiter {
    if w.costKey in peaks then w.(estimate := Max(w.estimate, peaks[w.costKey])) else w
  }

  ghost predicate Fits(s: State, w: Waiter) {
    s.reservations == map[] || AvailableKb(s) >= w.estimate
  }

  ghost function Admit(s: State, w: Waiter): State
    requires s.waiters != []
  {
    var reservations := if w.session in s.reservations then s.reservations
                        else s.reservations[w.session := Reservation(w.costKey, w.estimate, 0, 0, false)];
    s.(waiters := s.waiters[1..], reservations := reservations,
       grants := s.grants + [Grant(w.id, s.reservations == map[], s.known, UnrealisedKb(reservations), s.available)])
  }

  /** Grants from the head of the queue until it is empty or its head does not fit. */
  ghost function GrantWaiters(s: State, poll: nat -> Poll): State
    decreases |s.waiters|
  {
    if s.waiters == [] || s.stopped then s
    else if Dropped(s.waiters[0], poll(s.waiters[0].id)) then GrantWaiters(s.(waiters := s.waiters[1..]), poll)
    else
      var w := Raised(s.waiters[0], s.peaks);
      if Fits(s, w) then GrantWaiters(Admit(s, w), poll)
      else s.(waiters := [w] + s.waiters[1..])
  }

  // ---- the other critical sections -------------------------------------------------

  function WithPeak(peaks: map<string, u64>, r: Reservation): map<string, u64> {
    if r.peak == 0 then peaks
    else peaks[r.costKey := if r.costKey in peaks then Max(peaks[r.costKey], r.peak) else r.peak]
  }

  function Free(s: State, session: nat): State {
    if session !in s.reservations then s
    else s.(peaks := WithPeak(s.peaks, s.reservations[session]), reservations := s.reservations - {session})
  }

  /** A measured process tree. Without a fresh MemAvailable the realised figure waits, unless nothing is known yet. */
  function Measured(r: Reservation, rss: u64, readNow: bool, known: bool): Reservation {
    r.(peak := if !r.fallback && rss > r.peak then rss else r.peak,
       realised := if readNow || !known || r.fallback then rss else r.realised)
  }

  function ApplySample(s: State, sample: Sample, readNow: bool): State {
    if sample.session !in s.reservations then s
    else if sample.released then Free(s, sample.session)
    else if sample.rss.None? then s
    else
      s.(reservations := s.reservations[sample.session :=
                           Measured(s.reservations[sample.session], sample.rss.value, readNow, s.known)])
  }

  function ApplySamples(s: State, samples: seq<Sample>, readNow: bool): State
    decreases |samples|
  {
    if samples == [] then s else ApplySamples(ApplySample(s, samples[0], readNow), samples[1..], readNow)
  }

  ghost function Update(s: State, available: Option<u64>, samples: seq<Sample>, poll: nat -> Poll): State {
    if s.stopped then s
    else
      var s1 := if available.Some? then s.(available := available.value, known := true) else s;
      GrantWaiters(ApplySamples(s1, samples, available.Some?), poll)
  }

  /** The waiter that was not granted at once gets its deadline. */
  function SetDeadline(s: State, id: nat, deadline: int): State {
    if s.waiters != [] && s.waiters[|s.waiters| - 1].id == id then
      s.(waiters := s.waiters[..|s.waiters| - 1] + [s.waiters[|s.waiters| - 1].(deadline := Some(deadline))])
    else s
  }

  ghost function Reserve(s: State, session: nat, costKey: string, estimate: u64, deadline: int,
                         poll: nat -> Poll): State {
    if session in s.reservations then s
    else
      var w := Waiter(s.arrivals, session, costKey, estimate, None);
      SetDeadline(GrantWaiters(s.(waiters := s.waiters + [w], arrivals := s.arrivals + 1), poll), w.id, deadline)
  }

  function Without(waiters: seq<Waiter>, leaves: Waiter -> bool): seq<Waiter> {
    if waiters == [] then []
    else (if leaves(waiters[0]) then [] else [waiters[0]]) + Without(waiters[1..], leaves)
  }

  ghost function TimeOut(s: State, id: nat, poll: nat -> Poll): State {
    GrantWaiters(s.(waiters := Without(s.waiters, (w: Waiter) => w.id == id)), poll)
  }

  ghost function Close(s: State, session: nat, poll: nat -> Poll): State {
    GrantWaiters(Free(s.(waiters := Without(s.waiters, (w: Waiter) => w.session == session)), session), poll)
  }

  function Spawned(s: State, session: nat, visible: bool): State {
    if session !in s.reservations || s.stopped then s
    else s.(reservations := s.reservations[session := s.reservations[session].(realised := 0, fallback := !visible)])
  }

  function Shutdown(s: State): State {
    s.(stopped := true, reservations := map[], waiters := [])
  }

  // ---- what every run keeps --------------------------------------------------------

  /** Arrival order, over the queue and over the grants already made. */
  ghost predicate InOrder(waiters: seq<Waiter>, grants: seq<Grant>, arrivals: nat) {
    && (forall i, j :: 0 <= i < j < |waiters| ==> waiters[i].id < waiters[j].id)
    && (forall i, j :: 0 <= i < j < |grants| ==> grants[i].id < grants[j].id)
    && (forall i, j :: 0 <= i < |grants| && 0 <= j < |waiters| ==> grants[i].id < waiters[j].id)
    && (forall i :: 0 <= i < |waiters| ==> waiters[i].id < arrivals)
    && (forall i :: 0 <= i < |grants| ==> grants[i].id < arrivals)
  }

  /** Each session waits once and not while it holds a reservation; no estimate is zero. */
  ghost predicate Waiting(waiters: seq<Waiter>, reservations: map<nat, Reservation>) {
    && (forall i, j :: 0 <= i < j < |waiters| ==> waiters[i].session != waiters[j].session)
    && (forall i :: 0 <= i < |waiters| ==> waiters[i].session !in reservations && waiters[i].estimate > 0)
  }

  /** A grant beside other reservations left their sum within the last MemAvailable read. */
  ghost predicate GrantsFit(grants: seq<Grant>) {
    forall i :: 0 <= i < |grants| ==>
      grants[i].alone || !grants[i].metered || grants[i].unrealised <= grants[i].available
  }

  /** The head of a queue is held back only by other reservations and too little memory. */
  ghost predicate NoStall(s: State) {
    s.waiters != [] && !s.stopped ==> s.reservations != map[] && AvailableKb(s) < s.waiters[0].estimate
  }

  /** Everything but NoStall, which holds only once granting has run. */
  ghost predicate Sound(s: State) {
    InOrder(s.waiters, s.grants, s.arrivals) && Waiting(s.waiters, s.reservations) && GrantsFit(s.grants)
  }

  ghost predicate Inv(s: State) {
    Sound(s) && NoStall(s)
  }

  /**
   When a request is granted beside others with memory metered, the sum of
   unrealised estimates stays within MemAvailable exactly when the estimate is
   not zero or the sum was within it before.
   */
  lemma GrantFitsExactly(s: State, w: Waiter)
    requires s.known && s.reservations != map[] && Fits(s, w) && w.session !in s.reservations && s.waiters != []
    ensures UnrealisedKb(Admit(s, w).reservations) <= s.available <==>
            w.estimate > 0 || UnrealisedKb(s.reservations) <= s.available
  {
    UnmetPut(s.reservations, w.session, Reservation(w.costKey, w.estimate, 0, 0, false));
  }

  lemma AdmitSound(s: State, w: Waiter)
    requires Sound(s) && s.waiters != [] && w.id == s.waiters[0].id
    requires w.session == s.waiters[0].session && w.estimate > 0
    requires Fits(s, w)
    ensures Sound(Admit(s, w))
  {
    if s.known && s.reservations != map[] {
      GrantFitsExactly(s, w);
    }
  }

  /** A head that does not fit stalls the queue only beside other reservations. */
  lemma BlockedHead(s: State, w: Waiter)
    requires Sound(s) && s.waiters != [] && !Fits(s, w)
    requires w.id == s.waiters[0].id && w.session == s.waiters[0].session && w.estimate > 0
    ensures Inv(s.(waiters := [w] + s.waiters[1..]))
  {
  }

  /** Granting keeps arrival order and stops only at a head that cannot be admitted. */
  lemma {:induction false} GrantKeeps(s: State, poll: nat -> Poll)
    requires Sound(s)
    ensures Inv(GrantWaiters(s, poll))
    decreases |s.waiters|
  {
    if s.waiters != [] && !s.stopped {
      if Dropped(s.waiters[0], poll(s.waiters[0].id)) {
        GrantKeeps(s.(waiters := s.waiters[1..]), poll);
      } else {
        var w := Raised(s.waiters[0], s.peaks);
        if Fits(s, w) {
          AdmitSound(s, w);
          GrantKeeps(Admit(s, w), poll);
        } else {
          BlockedHead(s, w);
        }
      }
    }
  }

  /** The arrival numbers of the waiters that are neither gone nor expired, in queue order. */
  function Staying(waiters: seq<Waiter>, poll: nat -> Poll): seq<nat> {
    if waiters == [] then []
    else (if Dropped(waiters[0], poll(waiters[0].id)) then [] else [waiters[0].id]) + Staying(waiters[1..], poll)
  }

  lemma StayingStep(waiters: seq<Waiter>, n: nat, poll: nat -> Poll)
    requires n < |waiters|
    ensures Staying(waiters[..n + 1], poll) ==
            (if Dropped(waiters[0], poll(waiters[0].id)) then [] else [waiters[0].id])
            + Staying(waiters[1..][..n], poll)
  {
    assert waiters[..n + 1][1..] == waiters[1..][..n];
  }

  /** How many waiters one round of granting takes off the queue. */
  ghost function Consumed(s: State, poll: nat -> Poll): nat
    decreases |s.waiters|
  {
    if s.waiters == [] || s.stopped then 0
    else if Dropped(s.waiters[0], poll(s.waiters[0].id)) then 1 + Consumed(s.(waiters := s.waiters[1..]), poll)
    else
      var w := Raised(s.waiters[0], s.peaks);
      if Fits(s, w) then 1 + Consumed(Admit(s, w), poll) else 0
  }

  /** `left` is the rest of a queue after its first n; only its new head may have a raised estimate. */
  ghost predicate RestOf(waiters: seq<Waiter>, n: nat, left: seq<Waiter>) {
    && n <= |waiters| && |left| == |waiters| - n
    && (forall i :: 0 < i < |left| ==> left[i] == waiters[n + i])
    && (left != [] ==> left[0].id == waiters[n].id)
  }

  lemma RestOfTail(waiters: seq<Waiter>, n: nat, left: seq<Waiter>)
    requires waiters != [] && RestOf(waiters[1..], n, left)
    ensures RestOf(waiters, n + 1, left)
  {
  }

  lemma {:induction false} GrantsLeaveRest(s: State, poll: nat -> Poll)
    ensures RestOf(s.waiters, Consumed(s, poll), GrantWaiters(s, poll).waiters)
    decreases |s.waiters|
  {
    if s.waiters != [] && !s.stopped {
      var w := Raised(s.waiters[0], s.peaks);
      if Dropped(s.waiters[0], poll(s.waiters[0].id)) {
        var t := s.(waiters := s.waiters[1..]);
        GrantsLeaveRest(t, poll);
        RestOfTail(s.waiters, Consumed(t, poll), GrantWaiters(t, poll).waiters);
      } else if Fits(s, w) {
        var t := Admit(s, w);
        GrantsLeaveRest(t, poll);
        RestOfTail(s.waiters, Consumed(t, poll), GrantWaiters(t, poll).waiters);
      }
    }
  }

  /** The grants `more` continue `grants` with exactly the arrivals `ids`, in order. */
  ghost predicate Continues(grants: seq<Grant>, more: seq<Grant>, ids: seq<nat>) {
    && grants <= more && |more| == |grants| + |ids|
    && forall i :: 0 <= i < |ids| ==> more[|grants| + i].id == ids[i]
  }

  lemma ContinuesCons(grants: seq<Grant>, g: Grant, more: seq<Grant>, ids: seq<nat>)
    requires Continues(grants + [g], more, ids)
    ensures Continues(grants, more, [g.id] + ids)
  {
    assert grants <= grants + [g];
    assert more[|grants|] == g;
  }

  lemma GrantedFirst(s: State, w: Waiter, poll: nat -> Poll, n: nat, more: seq<Grant>)
    requires s.waiters != [] && w.id == s.waiters[0].id
    requires !Dropped(s.waiters[0], poll(s.waiters[0].id)) && n < |s.waiters|
    requires Continues(Admit(s, w).grants, more, Staying(s.waiters[1..][..n], poll))
    ensures Continues(s.grants, more, Staying(s.waiters[..n + 1], poll))
  {
    StayingStep(s.waiters, n, poll);
    var grants := Admit(s, w).grants;
    assert grants == s.grants + [grants[|s.grants|]];
    ContinuesCons(s.grants, grants[|s.grants|], more, Staying(s.waiters[1..][..n], poll));
  }

  lemma DroppedFirst(waiters: seq<Waiter>, poll: nat -> Poll, n: nat, grants: seq<Grant>, more: seq<Grant>)
    requires n < |waiters| && Dropped(waiters[0], poll(waiters[0].id))
    requires Continues(grants, more, Staying(waiters[1..][..n], poll))
    ensures Continues(grants, more, Staying(waiters[..n + 1], poll))
  {
    StayingStep(waiters, n, poll);
    assert [] + Staying(waiters[1..][..n], poll) == Staying(waiters[1..][..n], poll);
  }

  /** Granting consumes a prefix of the queue, and grants exactly those of it who are still there, in order. */
  lemma {:induction false} GrantsArePrefix(s: State, poll: nat -> Poll)
    ensures Consumed(s, poll) <= |s.waiters|
    ensures Continues(s.grants, GrantWaiters(s, poll).grants, Staying(s.waiters[..Consumed(s, poll)], poll))
    decreases |s.waiters|
  {
    if s.waiters != [] && !s.stopped {
      var w := Raised(s.waiters[0], s.peaks);
      if Dropped(s.waiters[0], poll(s.waiters[0].id)) {
        var t := s.(waiters := s.waiters[1..]);
        GrantsArePrefix(t, poll);
        DroppedFirst(s.waiters, poll, Consumed(t, poll), s.grants, GrantWaiters(t, poll).grants);
      } else if Fits(s, w) {
        var t := Admit(s, w);
        GrantsArePrefix(t, poll);
        GrantedFirst(s, w, poll, Consumed(t, poll), GrantWaiters(t, poll).grants);
      }
    }
  }

  ghost predicate Increasing(waiters: seq<Waiter>) {
    forall i, j :: 0 <= i < j < |waiters| ==> waiters[i].id < waiters[j].id && waiters[i].session != waiters[j].session
  }

  lemma {:induction false} WithoutExactly(waiters: seq<Waiter>, leaves: Waiter -> bool)
    ensures forall w :: w in Without(waiters, leaves) <==> w in waiters && !leaves(w)
    decreases |waiters|
  {
    if waiters != [] {
      WithoutExactly(waiters[1..], leaves);
      assert forall w :: w in waiters <==> w == waiters[0] || w in waiters[1..];
    }
  }

  lemma {:induction false} WithoutKeepsOrder(waiters: seq<Waiter>, leaves: Waiter -> bool)
    requires Increasing(waiters)
    ensures Increasing(Without(waiters, leaves))
    decreases |waiters|
  {
    if waiters != [] {
      WithoutKeepsOrder(waiters[1..], leaves);
      WithoutExactly(waiters[1..], leaves);
      var rest := Without(waiters[1..], leaves);
      forall i | 0 <= i < |rest| ensures waiters[0].id < rest[i].id && waiters[0].session != rest[i].session {
        assert rest[i] in waiters[1..];
      }
    }
  }

  lemma RemovalKeeps(s: State, leaves: Waiter -> bool)
    requires Sound(s)
    ensures Sound(s.(waiters := Without(s.waiters, leaves)))
  {
    WithoutKeepsOrder(s.waiters, leaves);
    WithoutExactly(s.waiters, leaves);
    var rest := Without(s.waiters, leaves);
    forall i | 0 <= i < |rest| ensures exists j :: 0 <= j < |s.waiters| && rest[i] == s.waiters[j] {
      assert rest[i] in s.waiters;
    }
  }

  lemma FreeSound(s: State, session: nat)
    requires Sound(s)
    ensures Sound(Free(s, session))
  {
  }

  lemma SampleSound(s: State, sample: Sample, readNow: bool)
    requires Sound(s)
    ensures Sound(ApplySample(s, sample, readNow)) && ApplySample(s, sample, readNow).stopped == s.stopped
  {
  }

  lemma {:induction false} SamplesSound(s: State, samples: seq<Sample>, readNow: bool)
    requires Sound(s)
    ensures Sound(ApplySamples(s, samples, readNow))
    decreases |samples|
  {
    if samples != [] {
      SampleSound(s, samples[0], readNow);
      SamplesSound(ApplySample(s, samples[0], readNow), samples[1..], readNow);
    }
  }

  /** A newly announced compiler process only lowers what is available, so a blocked head stays blocked. */
  lemma SpawnedKeeps(s: State, session: nat, visible: bool)
    requires Inv(s)
    ensures Inv(Spawned(s, session, visible))
  {
    if session in s.reservations {
      UnmetPut(s.reservations, session, s.reservations[session].(realised := 0, fallback := !visible));
    }
  }

  lemma ArrivalSound(s: State, w: Waiter)
    requires Sound(s) && w.id == s.arrivals && w.session !in s.reservations && w.estimate > 0
    requires forall i :: 0 <= i < |s.waiters| ==> s.waiters[i].session != w.session
    ensures Sound(s.(waiters := s.waiters + [w], arrivals := s.arrivals + 1))
  {
  }

  lemma ReserveKeeps(s: State, session: nat, costKey: string, estimate: u64, deadline: int, poll: nat -> Poll)
    requires Inv(s) && estimate > 0 && forall i :: 0 <= i < |s.waiters| ==> s.waiters[i].session != session
    ensures Inv(Reserve(s, session, costKey, estimate, deadline, poll))
  {
    if session !in s.reservations {
      var w := Waiter(s.arrivals, session, costKey, estimate, None);
      var s1 := s.(waiters := s.waiters + [w], arrivals := s.arrivals + 1);
      ArrivalSound(s, w);
      GrantKeeps(s1, poll);
      DeadlineKeeps(GrantWaiters(s1, poll), w.id, deadline);
    }
  }

  lemma DeadlineKeeps(s: State, id: nat, deadline: int)
    requires Inv(s)
    ensures Inv(SetDeadline(s, id, deadline))
  {
  }

  datatype Step =
    | ReserveStep(session: nat, costKey: string, requested: u64, default: u64, deadline: int)
    | UpdateStep(available: Option<u64>, samples: seq<Sample>)
    | SpawnedStep(session: nat, visible: bool)
    | TimeOutStep(id: nat)
    | CloseStep(session: nat)
    | ShutdownStep

  /** A session asks for one thing at a time, and the configured default estimate is positive. */
  predicate Enabled(s: State, step: Step) {
    step.ReserveStep? ==> step.default > 0 && forall i :: 0 <= i < |s.waiters| ==> s.waiters[i].session != step.session
  }

  ghost function Next(s: State, step: Step, poll: nat -> Poll): State {
    match step
    case ReserveStep(x, c, requested, default, deadline) =>
      Reserve(s, x, c, if requested == 0 then default else requested, deadline, poll)
    case UpdateStep(available, samples) => Update(s, available, samples, poll)
    case SpawnedStep(x, visible) => Spawned(s, x, visible)
    case TimeOutStep(id) => TimeOut(s, id, poll)
    case CloseStep(x) => Close(s, x, poll)
    case ShutdownStep => Shutdown(s)
  }

  lemma StepKeeps(s: State, step: Step, poll: nat -> Poll)
    requires Inv(s) && Enabled(s, step)
    ensures Inv(Next(s, step, poll))
  {
    match step
    case ReserveStep(x, c, requested, default, deadline) =>
      ReserveKeeps(s, x, c, if requested == 0 then default else requested, deadline, poll);
    case UpdateStep(available, samples) =>
      if !s.stopped {
        var s1 := if available.Some? then s.(available := available.value, known := true) else s;
        SamplesSound(s1, samples, available.Some?);
        GrantKeeps(ApplySamples(s1, samples, available.Some?), poll);
      }
    case SpawnedStep(x, visible) => SpawnedKeeps(s, x, visible);
    case TimeOutStep(id) =>
      RemovalKeeps(s, (w: Waiter) => w.id == id);
      GrantKeeps(s.(waiters := Without(s.waiters, (w: Waiter) => w.id == id)), poll);
    case CloseStep(x) =>
      RemovalKeeps(s, (w: Waiter) => w.session == x);
      FreeSound(s.(waiters := Without(s.waiters, (w: Waiter) => w.session == x)), x);
      GrantKeeps(Free(s.(waiters := Without(s.waiters, (w: Waiter) => w.session == x)), x), poll);
    case ShutdownStep =>
  }

  ghost predicate IsRun(s: State, steps: seq<(Step, nat -> Poll)>)
    decreases |steps|
  {
    steps == [] || (Enabled(s, steps[0].0) && IsRun(Next(s, steps[0].0, steps[0].1), steps[1..]))
  }

  ghost function After(s: State, steps: seq<(Step, nat -> Poll)>): State
    requires IsRun(s, steps)
    decreases |steps|
  {
    if steps == [] then s else After(Next(s, steps[0].0, steps[0].1), steps[1..])
  }

  lemma {:induction false} RunKeeps(s: State, steps: seq<(Step, nat -> Poll)>)
    requires Inv(s) && IsRun(s, steps)
    ensures Inv(After(s, steps))
    decreases |steps|
  {
    if steps != [] {
      StepKeeps(s, steps[0].0, steps[0].1);
      RunKeeps(Next(s, steps[0].0, steps[0].1), steps[1..]);
    }
  }

  /**
   Memory admission over every run: grants are made in arrival order; a grant
   beside other reservations leaves the saturating sum of unrealised estimates
   within the last MemAvailable read; and a queue that is not empty waits only
   for reservations that leave too little memory for its head.
   */
  lemma MemoryAdmission(steps: seq<(Step, nat -> Poll)>)
    requires IsRun(Init(), steps)
    ensures var s := After(Init(), steps);
            && (forall i, j :: 0 <= i < j < |s.grants| ==> s.grants[i].id < s.grants[j].id)
            && (forall i :: 0 <= i < |s.grants| && !s.grants[i].alone && s.grants[i].metered ==>
                  s.grants[i].unrealised <= s.grants[i].available)
            && (s.waiters != [] && !s.stopped ==> s.reservations != map[] && AvailableKb(s) < s.waiters[0].estimate)
  {
    RunKeeps(Init(), steps);
  }
}

/** The admission queue as the daemon keeps it. */
module AdmissionClass {
  import opened Common
  import opened AdmissionModel

  class Admission {
    var waiters: seq<Waiter>
    var reservations: map<nat, Reservation>
    var peaks: map<string, u64>
    var available: u64
    var known: bool
    var stopped: bool
    var arrivals: nat
    ghost var grants: seq<Grant>

    ghost function View(): State
      reads this
    {
      State(waiters, reservations, peaks, available, known, stopped, arrivals, grants)
    }

    constructor ()
      ensures View() == Init()
    {
      waiters, reservations, peaks, available, known := [], map[], map[], 0, false;
      stopped, arrivals, grants := false, 0, [];
    }

    /** Adding up with saturation gives the saturated total, in whatever order the reservations come. */
    method UnrealisedKb() returns (kb: u64)
      ensures kb == AdmissionModel.UnrealisedKb(reservations)
    {
      kb := 0;
      var todo := reservations;
      while todo != map[]
        invariant todo.Keys <= reservations.Keys && forall x :: x in todo ==> todo[x] == reservations[x]
        invariant kb == if Total(Unmet(reservations)) - Total(Unmet(todo)) > MAX_U64 then MAX_U64
                        else Total(Unmet(reservations)) - Total(Unmet(todo))
        decreases |todo|
      {
        var x :| x in todo;
        TotalDrop(Unmet(todo), x);
        assert Unmet(todo - {x}) == Unmet(todo) - {x};
        kb := SaturatingAdd(kb, Unrealised(todo[x]));
        todo := todo - {x};
      }
    }

    method AvailableKb() returns (kb: u64)
      ensures kb == AdmissionModel.AvailableKb(View())
    {
      if !known {
        return MAX_U64;
      }
      var unrealised := UnrealisedKb();
      kb := if unrealised >= available then 0 else available - unrealised;
    }

    method GrantMemoryWaiters(poll: nat -> Poll)
      modifies this`waiters, this`reservations, this`grants
      ensures View() == GrantWaiters(old(View()), poll)
    {
      while waiters != [] && !stopped
        invariant GrantWaiters(View(), poll) == GrantWaiters(old(View()), poll)
        decreases |waiters|
      {
        var waiter := waiters[0];
        var seen := poll(waiter.id);
        if seen.gone || (waiter.deadline.Some? && seen.now >= waiter.deadline.value) {
          waiters := waiters[1..];
          continue;
        }
        if waiter.costKey in peaks {
          waiter := waiter.(estimate := Max(waiter.estimate, peaks[waiter.costKey]));
        }
        var availableKb := AvailableKb();
        if reservations != map[] && availableKb < waiter.estimate {
          waiters := [waiter] + waiters[1..];
          return;
        }
        ghost var alone := reservations == map[];
        if waiter.session !in reservations {
          reservations := reservations[waiter.session := Reservation(waiter.costKey, waiter.estimate, 0, 0, false)];
        }
        waiters := waiters[1..];
        grants := grants + [Grant(waiter.id, alone, known, AdmissionModel.UnrealisedKb(reservations), available)];
      }
    }

    method RememberTreePeak(r: Reservation)
      modifies this`peaks
      ensures peaks == WithPeak(old(peaks), r)
    {
      if r.peak == 0 {
        return;
      }
      var peak := if r.costKey in peaks then peaks[r.costKey] else 0;
      peaks := peaks[r.costKey := Max(peak, r.peak)];
    }

    /** The half of UpdateAdmission that runs after sampling. */
    method UpdateAdmission(availableNow: Option<u64>, samples: seq<Sample>, poll: nat -> Poll)
      modifies this
      ensures View() == Update(old(View()), availableNow, samples, poll)
    {
      if stopped {
        return;
      }
      if availableNow.Some? {
        available, known := availableNow.value, true;
      }
      ghost var from := View();
      var i := 0;
      while i < |samples|
        invariant 0 <= i <= |samples|
        invariant ApplySamples(View(), samples[i..], availableNow.Some?)
                  == ApplySamples(from, samples, availableNow.Some?)
        modifies this`reservations, this`peaks
      {
        assert samples[i..][1..] == samples[i + 1..];
        Absorb(samples[i], availableNow.Some?);
        i := i + 1;
      }
      assert samples[i..] == [];
      GrantMemoryWaiters(poll);
    }

    method Absorb(sample: Sample, readNow: bool)
      modifies this`reservations, this`peaks
      ensures View() == ApplySample(old(View()), sample, readNow)
    {
      var x := sample.session;
      if x !in reservations {
        return;
      }
      var r := reservations[x];
      if sample.released {
        RememberTreePeak(r);
        reservations := reservations - {x};
      } else if sample.rss.Some? {
        var rss := sample.rss.value;
        if !r.fallback && rss > r.peak {
          r := r.(peak := rss);
        }
        if readNow || !known || r.fallback {
          r := r.(realised := rss);
        }
        reservations := reservations[x := r];
      }
    }

    /** True when the session already holds memory or got it at once; otherwise it is queued with its deadline. */
    method Reserve(session: nat, costKey: string, estimate: u64, deadline: int, poll: nat -> Poll)
      returns (granted: bool)
      modifies this
      ensures View() == AdmissionModel.Reserve(old(View()), session, costKey, estimate, deadline, poll)
      ensures granted <==>
              !(session !in old(reservations) && waiters != [] && waiters[|waiters| - 1].id == old(arrivals))
    {
      if session in reservations {
        granted := true;
      } else {
        var id := arrivals;
        waiters, arrivals := waiters + [Waiter(id, session, costKey, estimate, None)], arrivals + 1;
        GrantMemoryWaiters(poll);
        granted := SetDeadline(id, deadline);
      }
    }

    method SetDeadline(id: nat, deadline: int) returns (absent: bool)
      modifies this`waiters
      ensures View() == AdmissionModel.SetDeadline(old(View()), id, deadline)
      ensures absent <==> waiters == [] || waiters[|waiters| - 1].id != id
    {
      var n := |waiters|;
      absent := n == 0 || waiters[n - 1].id != id;
      if !absent {
        waiters := waiters[..n - 1] + [waiters[n - 1].(deadline := Some(deadline))];
      }
    }

    method EraseWaiters(leaves: Waiter -> bool)
      modifies this`waiters
      ensures waiters == Without(old(waiters), leaves)
    {
      var kept: seq<Waiter> := [];
      var i := 0;
      while i < |waiters|
        invariant 0 <= i <= |waiters|
        invariant kept + Without(waiters[i..], leaves) == Without(waiters, leaves)
        modifies {}
      {
        assert waiters[i..][1..] == waiters[i + 1..];
        if !leaves(waiters[i]) {
          kept := kept + [waiters[i]];
        }
        i := i + 1;
      }
      assert waiters[i..] == [];
      waiters := kept;
    }

    method TimeOut(id: nat, poll: nat -> Poll)
      modifies this
      ensures View() == AdmissionModel.TimeOut(old(View()), id, poll)
    {
      EraseWaiters((w: Waiter) => w.id == id);
      GrantMemoryWaiters(poll);
    }

    method CloseSession(session: nat, poll: nat -> Poll)
      modifies this
      ensures View() == Close(old(View()), session, poll)
    {
      if session in reservations {
        RememberTreePeak(reservations[session]);
        reservations := reservations - {session};
      }
      EraseWaiters((w: Waiter) => w.session == session);
      GrantMemoryWaiters(poll);
    }

    method CompilerSpawned(session: nat, visible: bool)
      modifies this`reservations
      ensures View() == Spawned(old(View()), session, visible)
    {
      if session in reservations && !stopped {
        var r := reservations[session];
        reservations := reservations[session := Reservation(r.costKey, r.estimate, 0, r.peak, !visible)];
      }
    }
  }
}
