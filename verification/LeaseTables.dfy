/** What the lease table holds in every run: no more than the leases and fetches that are going on. */
module LeaseTables {
  import opened Common
  import opened LeaseModel

  /** The fetch of each key that others wait for: the first to begin while none was going on, until it ends. */
  function NextFetching(step: Step, fetching: map<Key, nat>): map<Key, nat> {
    match step
    case FetchBeginStep(k, f) => if k in fetching then fetching else fetching[k := f]
    case FetchEndStep(k, f) => if Lookup(fetching, k) == Some(f) then fetching - {k} else fetching
    case StopStep => map[]
    case _ => fetching
  }

  function FetchingAfter(steps: seq<Step>, fetching: map<Key, nat>): map<Key, nat> {
    if steps == [] then fetching else FetchingAfter(steps[1..], NextFetching(steps[0], fetching))
  }

  function FetchIn(table: map<Key, Entry>, k: Key): Option<nat> {
    if k in table then table[k].fetch else None
  }

  /** No entry is empty, and the fetches are those going on. */
  ghost predicate Exact(table: map<Key, Entry>, fetching: map<Key, nat>) {
    && (forall k :: k in table ==> table[k] != Entry(None, None))
    && (forall k :: FetchIn(table, k) == Lookup(fetching, k))
  }

  // ---- each way the table changes --------------------------------------------------

  lemma SetEntryExact(table: map<Key, Entry>, fetching: map<Key, nat>, k: Key, e: Entry)
    requires Exact(table, fetching) && e.fetch == FetchIn(table, k)
    ensures Exact(SetEntry(table, k, e), fetching)
  {
    assert FetchIn(table, k) == Lookup(fetching, k);
  }

  lemma ExpireExact(s: State, keys: set<Key>, fetching: map<Key, nat>)
    requires Exact(s.table, fetching)
    ensures Exact(ExpireKeys(s, keys).table, fetching)
  {
    forall k ensures FetchIn(ExpireKeys(s, keys).table, k) == Lookup(fetching, k) {
      assert FetchIn(s.table, k) == Lookup(fetching, k);
    }
  }

  lemma ReleaseExact(s: State, x: nat, k: Key, stored: bool, fetching: map<Key, nat>)
    requires TableOk(s) && Exact(s.table, fetching)
    ensures Exact(Release(s, x, k, stored).table, fetching)
  {
    if Current(s.table, k).Some? {
      SetEntryExact(s.table, fetching, k, s.table[k].(compile := None));
    } else if k in s.table {
      SetEntryExact(s.table, fetching, k, s.table[k]);
    }
  }

  lemma AcquireExact(s: State, x: nat, k: Key, next: nat, fetching: map<Key, nat>)
    requires TableOk(s) && x in s.sessions && Exact(s.table, fetching)
    ensures Exact(WithLease(s, x, k, next).table, fetching)
  {
    assert FetchIn(s.table, k) == Lookup(fetching, k);
  }

  lemma FetchBeginExact(s: State, k: Key, f: nat, fetching: map<Key, nat>)
    requires Exact(s.table, fetching)
    ensures Exact(FetchBegin(s, k, f).table, NextFetching(FetchBeginStep(k, f), fetching))
  {
    var table', fetching' := FetchBegin(s, k, f).table, NextFetching(FetchBeginStep(k, f), fetching);
    forall j ensures FetchIn(table', j) == Lookup(fetching', j) {
      assert FetchIn(s.table, j) == Lookup(fetching, j) && FetchIn(s.table, k) == Lookup(fetching, k);
    }
  }

  lemma FetchEndExact(s: State, k: Key, f: nat, fetching: map<Key, nat>)
    requires Exact(s.table, fetching)
    ensures Exact(FetchEnd(s, k, f).table, NextFetching(FetchEndStep(k, f), fetching))
  {
    var table', fetching' := FetchEnd(s, k, f).table, NextFetching(FetchEndStep(k, f), fetching);
    forall j ensures FetchIn(table', j) == Lookup(fetching', j) {
      assert FetchIn(s.table, j) == Lookup(fetching, j) && FetchIn(s.table, k) == Lookup(fetching, k);
    }
  }

  lemma PutEndExact(s: State, p: nat, stored: bool, fetching: map<Key, nat>)
    requires Inv(s) && p in s.puts && Exact(s.table, fetching)
    ensures Exact(Next(s, PutEndStep(p, stored)).table, fetching)
  {
    var k := s.puts[p].key;
    if k in s.table {
      SetEntryExact(s.table, fetching, k, s.table[k].(compile := None));
    }
  }

  lemma StepExact(s: State, step: Step, fetching: map<Key, nat>)
    requires Inv(s) && Enabled(s, step) && Exact(s.table, fetching)
    ensures Exact(Next(s, step).table, NextFetching(step, fetching))
  {
    match step
    case CloseStep(x) => ExpireExact(s, (set k | k in s.table && Expires(s, x, k)), fetching);
    case AcquireStep(x, k, next) => AcquireExact(s, x, k, next, fetching);
    case ReleaseStep(x, k, stored) => ReleaseExact(s, x, k, stored, fetching);
    case PutEndStep(p, stored) => PutEndExact(s, p, stored, fetching);
    case FetchBeginStep(k, f) => FetchBeginExact(s, k, f, fetching);
    case FetchEndStep(k, f) => FetchEndExact(s, k, f, fetching);
    case _ =>
  }

  // ---- sessions --------------------------------------------------------------------

  /** No two open sessions are of one process, as far as processes are known. */
  ghost predicate OnePerProcess(sessions: map<nat, int>) {
    forall x, y :: x in sessions && y in sessions && x != y && sessions[x] > 0 ==> sessions[x] != sessions[y]
  }

  lemma SessionsOnly(s: State, step: Step)
    requires Inv(s) && Enabled(s, step) && !step.OpenStep?
    ensures Next(s, step).sessions == if step.CloseStep? then s.sessions - {step.session} else s.sessions
  {
    match step
    case AcquireStep(x, k, next) => AcquireSessions(s, x, k, next);
    case ReleaseStep(x, k, stored) => ReleaseSessions(s, x, k, stored);
    case PutEndStep(p, stored) => PutEndSessions(s, p, stored);
    case _ =>
  }

  lemma AcquireSessions(s: State, x: nat, k: Key, next: nat)
    requires TableOk(s) && x in s.sessions
    ensures Acquire(s, x, k, next).sessions == s.sessions
  {
  }

  lemma ReleaseSessions(s: State, x: nat, k: Key, stored: bool)
    requires TableOk(s)
    ensures Release(s, x, k, stored).sessions == s.sessions
  {
    if !HeldByOther(s, x, k) {
      var s1 := if Current(s.table, k).Some?
                then s.(log := s.log + [Released(x, Current(s.table, k).value, stored)]) else s;
      CompleteSessions(s1, k, if stored then Stored else Compile, if stored then NoReason else HolderFailed);
    }
  }

  lemma CompleteSessions(s: State, k: Key, o: Outcome, r: Reason)
    requires TableOk(s)
    ensures CompleteLease(s, k, o, r).sessions == s.sessions
  {
  }

  lemma PutEndSessions(s: State, p: nat, stored: bool)
    requires Inv(s) && p in s.puts
    ensures Next(s, PutEndStep(p, stored)).sessions == s.sessions
  {
  }

  lemma StepPerProcess(s: State, step: Step)
    requires Inv(s) && Enabled(s, step) && OnePerProcess(s.sessions)
    ensures OnePerProcess(Next(s, step).sessions)
  {
    if !step.OpenStep? {
      SessionsOnly(s, step);
    }
  }

  /** A session is opened exactly if no open one is of its process and the daemon is not stopping. */
  lemma OpensExactly(s: State, x: nat, pid: int)
    requires Inv(s) && Enabled(s, OpenStep(x, pid))
    ensures x in Next(s, OpenStep(x, pid)).sessions <==>
            !s.stopped && (pid <= 0 || forall y :: y in s.sessions ==> s.sessions[y] != pid)
  {
  }

  // ---- runs ------------------------------------------------------------------------

  lemma {:induction false} RunExact(s: State, steps: seq<Step>, fetching: map<Key, nat>)
    requires Inv(s) && IsRun(s, steps) && Exact(s.table, fetching) && OnePerProcess(s.sessions)
    ensures Exact(After(s, steps).table, FetchingAfter(steps, fetching)) && OnePerProcess(After(s, steps).sessions)
    decreases |steps|
  {
    if steps != [] {
      StepKeeps(s, steps[0]);
      StepExact(s, steps[0], fetching);
      StepPerProcess(s, steps[0]);
      RunExact(Next(s, steps[0]), steps[1..], NextFetching(steps[0], fetching));
    }
  }

  /**
   In every run a key is in the table exactly while it has an undecided lease or a fetch
   going on, with that fetch: a later fetch does not displace it, nor does its end; and no
   two open sessions are of one process.
   */
  lemma TableIsExact(steps: seq<Step>, k: Key)
    requires IsRun(Init(), steps)
    ensures var s, fetching := After(Init(), steps), FetchingAfter(steps, map[]);
            && (k in s.table <==>
                  k in fetching || exists l :: l in s.leases && s.leases[l].key == k && s.leases[l].outcome.None?)
            && FetchIn(s.table, k) == Lookup(fetching, k)
            && OnePerProcess(s.sessions)
  {
    RunEvolves(Init(), steps);
    RunExact(Init(), steps, map[]);
    var s, fetching := After(Init(), steps), FetchingAfter(steps, map[]);
    assert FetchIn(s.table, k) == Lookup(fetching, k);
  }
}
