/** Which step decides a lease, how, and what its waiters are told. */
module LeaseOutcomes {
  import opened Common
  import opened LeaseModel

  // ---- one step --------------------------------------------------------------------

  /** How a step decides a lease, if it decides one. */
  function Verdict(step: Step): (Outcome, Reason) {
    match step
    case PutEndStep(_, stored) => if stored then (Stored, NoReason) else (Compile, HolderFailed)
    case ReleaseStep(_, _, stored) => if stored then (Stored, NoReason) else (Compile, HolderFailed)
    case StopStep => (Compile, Shutdown)
    case _ => (Compile, HolderGone)
  }

  /** An undecided lease is decided by the steps that may do so, as they say, and by no others. */
  ghost predicate DecidedBy(s: State, step: Step, s': State, l: nat)
    requires l in s.leases && l in s'.leases
  {
    if MayDecide(s, step, l) then
      s'.leases[l].outcome == Some(Verdict(step).0) && s'.leases[l].reason == Verdict(step).1
    else s'.leases[l].outcome.None? && s'.leases[l].reason == s.leases[l].reason
  }

  lemma PutEndDecides(s: State, p: nat, stored: bool, l: nat)
    requires Inv(s) && p in s.puts && l in s.leases && s.leases[l].outcome.None?
    ensures l in Next(s, PutEndStep(p, stored)).leases
    ensures DecidedBy(s, PutEndStep(p, stored), Next(s, PutEndStep(p, stored)), l)
  {
    if s.puts[p].lease == Some(l) {
      CreditIsCounted(s, p);
      assert Current(s.table, s.puts[p].key) == Some(l);
    } else if s.puts[p].lease.Some? {
      CreditIsCounted(s, p);
    }
  }

  lemma ReleaseDecides(s: State, x: nat, k: Key, stored: bool, l: nat)
    requires Inv(s) && Enabled(s, ReleaseStep(x, k, stored)) && l in s.leases && s.leases[l].outcome.None?
    ensures l in Next(s, ReleaseStep(x, k, stored)).leases
    ensures DecidedBy(s, ReleaseStep(x, k, stored), Next(s, ReleaseStep(x, k, stored)), l)
  {
    assert Current(s.table, s.leases[l].key) == Some(l);
    assert k != s.leases[l].key ==> Current(s.table, k) != Some(l);
  }

  lemma CloseDecides(s: State, x: nat, l: nat)
    requires Inv(s) && Enabled(s, CloseStep(x)) && l in s.leases && s.leases[l].outcome.None?
    ensures l in Next(s, CloseStep(x)).leases && DecidedBy(s, CloseStep(x), Next(s, CloseStep(x)), l)
  {
    assert Current(s.table, s.leases[l].key) == Some(l);
  }

  lemma AcquireDecides(s: State, x: nat, k: Key, next: nat, l: nat)
    requires Inv(s) && Enabled(s, AcquireStep(x, k, next)) && l in s.leases
    ensures l in Acquire(s, x, k, next).leases && Acquire(s, x, k, next).leases[l] == s.leases[l]
  {
  }

  /** Who decides a lease and how, exactly. */
  lemma StepDecidesExactly(s: State, step: Step, l: nat)
    requires Inv(s) && Enabled(s, step) && l in s.leases && s.leases[l].outcome.None?
    ensures l in Next(s, step).leases && DecidedBy(s, step, Next(s, step), l)
  {
    match step
    case CloseStep(x) => CloseDecides(s, x, l);
    case AcquireStep(x, k, next) => AcquireDecides(s, x, k, next, l);
    case ReleaseStep(x, k, stored) => ReleaseDecides(s, x, k, stored, l);
    case PutEndStep(p, stored) => PutEndDecides(s, p, stored, l);
    case StopStep => assert Current(s.table, s.leases[l].key) == Some(l);
    case _ =>
  }

  /** A waiter on a decided lease is told its outcome when its wait ends, and one on an undecided lease nothing. */
  lemma WaiterIsTold(s: State, x: nat)
    requires Inv(s) && Enabled(s, EndWaitStep(x))
    ensures var s', lease := Next(s, EndWaitStep(x)), s.leases[s.waiters[x]];
            && x !in s'.waiters
            && (lease.outcome.Some? ==> s'.log == s.log + [Told(x, s.waiters[x], lease.outcome.value)])
            && (lease.outcome.None? ==> s'.log == s.log)
  {
  }

  /** A session that asks gets the key's lease or waits on it; a key that had none gets one that it holds. */
  lemma AcquireAnswers(s: State, x: nat, k: Key, next: nat)
    requires Inv(s) && Enabled(s, AcquireStep(x, k, next)) && !s.stopped
    ensures var s' := Next(s, AcquireStep(x, k, next));
            && Current(s'.table, k).Some?
            && var l := Current(s'.table, k).value;
            && l in s'.leases && s'.leases[l].key == k && s'.leases[l].outcome.None?
            && (Current(s.table, k).Some? ==> Current(s.table, k) == Some(l))
            && (Current(s.table, k).None? ==> s'.leases[l].holder == x)
            && s'.log == s.log + (if s'.leases[l].holder == x then [Granted(x, l)] else [])
            && (x in s'.waiters <==> s'.leases[l].holder != x)
            && (x in s'.waiters ==> s'.waiters[x] == l)
  {
    var s1 := WithLease(s, x, k, next);
    assert Current(s1.table, k).Some?;
  }

  /** A store of another process, as far as both are known, is not credited; every other store of a leased key is. */
  lemma StoreIsCredited(s: State, p: nat, k: Key, pid: int)
    requires Inv(s) && Enabled(s, PutBeginStep(p, k, pid))
    ensures var s' := Next(s, PutBeginStep(p, k, pid));
            && p in s'.puts && s'.puts[p].key == k
            && (s'.puts[p].lease.Some? ==> s'.puts[p].lease == Current(s.table, k))
            && (s'.puts[p].lease.None? <==>
                  || Current(s.table, k).None?
                  || (pid != 0 && s.leases[Current(s.table, k).value].holderPid !in {0, pid}))
  {
  }

  // ---- over runs -------------------------------------------------------------------

  /** A credited store that ended, or the holder's release. */
  predicate Speaks(e: Event, l: nat, holder: nat) {
    (e.PutEnded? && e.lease == l) || (e.Released? && e.lease == l && e.session == holder)
  }

  /** What the first to speak of a lease said: stored or not. */
  function FirstWord(log: seq<Event>, l: nat, holder: nat): Option<bool> {
    if log == [] then None
    else
      var before, e := FirstWord(log[..|log| - 1], l, holder), log[|log| - 1];
      if before.Some? then before else if Speaks(e, l, holder) then Some(e.stored) else None
  }

  lemma WordAfter(log: seq<Event>, e: Event, l: nat, holder: nat)
    ensures FirstWord(log + [e], l, holder) ==
            if FirstWord(log, l, holder).Some? then FirstWord(log, l, holder)
            else if Speaks(e, l, holder) then Some(e.stored) else None
  {
    assert (log + [e])[..|log|] == log;
  }

  /** A lease is undecided while nobody has spoken; decided by a word, it says what the first word was. */
  predicate WordOk(lease: Lease, word: Option<bool>) {
    match lease.outcome
    case None => word.None? && lease.reason == NoReason
    case Some(o) =>
      if lease.reason == HolderGone || lease.reason == Shutdown then o == Compile
      else word.Some? && (o == Stored <==> word.value) && (lease.reason == NoReason <==> word.value)
  }

  /** Whoever spoke, spoke of a lease there is. */
  ghost predicate WordsIn(leases: map<nat, Lease>, log: seq<Event>) {
    && (forall l :: l in leases ==> WordOk(leases[l], FirstWord(log, l, leases[l].holder)))
    && (forall e :: e in log && (e.PutEnded? || e.Released?) ==> e.lease in leases)
  }

  lemma {:induction false} NobodySpoke(log: seq<Event>, l: nat, holder: nat)
    requires forall e :: e in log && (e.PutEnded? || e.Released?) ==> e.lease != l
    ensures FirstWord(log, l, holder).None?
  {
    if log != [] {
      assert log[|log| - 1] in log;
      NobodySpoke(log[..|log| - 1], l, holder);
    }
  }

  /** What a step logs, if it logs anything. */
  ghost function Logged(s: State, step: Step): seq<Event>
    requires Inv(s) && Enabled(s, step)
  {
    match step
    case PutEndStep(p, stored) => if s.puts[p].lease.Some? then [PutEnded(p, s.puts[p].lease.value, stored)] else []
    case ReleaseStep(x, k, stored) =>
      if Current(s.table, k).None? || HeldByOther(s, x, k) then [] else [Released(x, Current(s.table, k).value, stored)]
    case _ => Next(s, step).log[|s.log|..]
  }

  lemma PutEndLogs(s: State, p: nat, stored: bool)
    requires Inv(s) && p in s.puts
    ensures Next(s, PutEndStep(p, stored)).log == s.log + Logged(s, PutEndStep(p, stored))
  {
    if s.puts[p].lease.Some? {
      CreditIsCounted(s, p);
    }
  }

  lemma ReleaseIs(s: State, x: nat, k: Key, stored: bool)
    requires TableOk(s)
    ensures var s', current := Release(s, x, k, stored), Current(s.table, k);
            && s'.leases.Keys == s.leases.Keys
            && s'.log == s.log + if current.None? || HeldByOther(s, x, k) then []
                                 else [Released(x, current.value, stored)]
  {
    assert s.log + [] == s.log;
  }

  /** Only the end of a store and a release are words, and each step logs one event at most. */
  lemma StepLogs(s: State, step: Step)
    requires Inv(s) && Enabled(s, step)
    ensures Next(s, step).log == s.log + Logged(s, step) && |Logged(s, step)| <= 1
    ensures !step.PutEndStep? && !step.ReleaseStep? ==>
              forall e :: e in Logged(s, step) ==> e.Granted? || e.Told?
  {
    match step
    case PutEndStep(p, stored) => PutEndLogs(s, p, stored);
    case ReleaseStep(x, k, stored) => ReleaseIs(s, x, k, stored);
    case _ =>
  }

  /** The word a step speaks of lease `l`. */
  ghost function Spoken(s: State, step: Step, l: nat): Option<bool>
    requires l in s.leases
  {
    match step
    case PutEndStep(p, stored) => if p in s.puts && s.puts[p].lease == Some(l) then Some(stored) else None
    case ReleaseStep(x, k, stored) =>
      if x == s.leases[l].holder && Current(s.table, k) == Some(l) then Some(stored) else None
    case _ => None
  }

  lemma StepSpeaks(s: State, step: Step, l: nat)
    requires Inv(s) && Enabled(s, step) && l in s.leases
    ensures var word := FirstWord(s.log, l, s.leases[l].holder);
            FirstWord(Next(s, step).log, l, s.leases[l].holder) == if word.Some? then word else Spoken(s, step, l)
  {
    StepLogs(s, step);
    LoggedSpeaks(s, step, l);
    var events := Logged(s, step);
    if events == [] {
      assert s.log + events == s.log;
    } else {
      assert events == [events[0]];
      WordAfter(s.log, events[0], l, s.leases[l].holder);
    }
  }

  lemma LoggedSpeaks(s: State, step: Step, l: nat)
    requires Inv(s) && Enabled(s, step) && l in s.leases
    ensures Logged(s, step) == [] ==> Spoken(s, step, l).None?
    ensures forall e :: e in Logged(s, step) ==>
              Spoken(s, step, l) == if Speaks(e, l, s.leases[l].holder) then Some(e.stored) else None
  {
    StepLogs(s, step);
  }

  lemma SpeakersAreLeases(s: State, step: Step)
    requires Inv(s) && Enabled(s, step) && WordsIn(s.leases, s.log)
    ensures forall e :: e in Next(s, step).log && (e.PutEnded? || e.Released?) ==> e.lease in s.leases
  {
    StepLogs(s, step);
    if step.PutEndStep? && s.puts[step.put].lease.Some? {
      CreditIsCounted(s, step.put);
    }
  }

  lemma OldLeaseKept(s: State, step: Step, l: nat)
    requires Inv(s) && Enabled(s, step) && WordsIn(s.leases, s.log) && l in s.leases
    ensures l in Next(s, step).leases
    ensures var lease := Next(s, step).leases[l];
            lease.holder == s.leases[l].holder && WordOk(lease, FirstWord(Next(s, step).log, l, lease.holder))
  {
    StepKeeps(s, step);
    StepSpeaks(s, step, l);
    assert WordOk(s.leases[l], FirstWord(s.log, l, s.leases[l].holder));
    if s.leases[l].outcome.None? {
      StepDecidesExactly(s, step, l);
    }
  }

  lemma NewLeaseIsSilent(s: State, step: Step, l: nat)
    requires Inv(s) && Enabled(s, step) && WordsIn(s.leases, s.log) && l !in s.leases && l in Next(s, step).leases
    ensures var lease := Next(s, step).leases[l]; WordOk(lease, FirstWord(Next(s, step).log, l, lease.holder))
  {
    SpeakersAreLeases(s, step);
    NewLeaseIsOpen(s, step, l);
    NobodySpoke(Next(s, step).log, l, Next(s, step).leases[l].holder);
  }

  lemma PutEndLeases(s: State, p: nat, stored: bool)
    requires Inv(s) && p in s.puts
    ensures Next(s, PutEndStep(p, stored)).leases.Keys == s.leases.Keys
  {
    if s.puts[p].lease.Some? {
      CreditIsCounted(s, p);
    }
  }

  lemma NewLeaseIsOpen(s: State, step: Step, l: nat)
    requires Inv(s) && Enabled(s, step) && l !in s.leases
    ensures l in Next(s, step).leases ==>
              Next(s, step).leases[l].outcome.None? && Next(s, step).leases[l].reason == NoReason
  {
    match step
    case PutEndStep(p, stored) => PutEndLeases(s, p, stored);
    case ReleaseStep(x, k, stored) => ReleaseIs(s, x, k, stored);
    case _ =>
  }

  lemma StepKeepsWords(s: State, step: Step)
    requires Inv(s) && Enabled(s, step) && WordsIn(s.leases, s.log)
    ensures WordsIn(Next(s, step).leases, Next(s, step).log)
  {
    var s' := Next(s, step);
    SpeakersAreLeases(s, step);
    StepKeeps(s, step);
    forall l | l in s'.leases ensures WordOk(s'.leases[l], FirstWord(s'.log, l, s'.leases[l].holder)) {
      if l in s.leases {
        OldLeaseKept(s, step, l);
      } else {
        NewLeaseIsSilent(s, step, l);
      }
    }
  }

  lemma {:induction false} RunKeepsWords(s: State, steps: seq<Step>)
    requires Inv(s) && IsRun(s, steps) && WordsIn(s.leases, s.log)
    ensures WordsIn(After(s, steps).leases, After(s, steps).log)
    decreases |steps|
  {
    if steps != [] {
      StepKeeps(s, steps[0]);
      StepKeepsWords(s, steps[0]);
      RunKeepsWords(Next(s, steps[0]), steps[1..]);
    }
  }

  /**
   After any run, a lease that neither a session's end nor shutdown decided is
   decided exactly when somebody entitled has spoken, and is "stored" exactly
   when the first word was; every waiter that was told anything was told that.
   */
  lemma OutcomeIsTheFirstWord(steps: seq<Step>)
    requires IsRun(Init(), steps)
    ensures var s := After(Init(), steps);
            && (forall l :: l in s.leases && s.leases[l].reason !in {HolderGone, Shutdown} ==>
                  var word := FirstWord(s.log, l, s.leases[l].holder);
                  s.leases[l].outcome == if word.None? then None else Some(if word.value then Stored else Compile))
            && (forall l :: l in s.leases && s.leases[l].reason in {HolderGone, Shutdown} ==>
                  s.leases[l].outcome == Some(Compile))
            && (forall e :: e in s.log && e.Told? ==>
                  e.lease in s.leases && s.leases[e.lease].outcome == Some(e.outcome))
  {
    RunEvolves(Init(), steps);
    RunKeepsWords(Init(), steps);
  }
}
