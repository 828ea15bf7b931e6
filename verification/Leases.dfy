/**
 Single-flight leases: at most one session compiles a key while others wait for
 its result. A state is what the daemon's lock guards; each step is one critical
 section of a handler. The class at the end updates the state in place and is
 proved to compute these steps.
 */
module LeaseModel {
  import opened Common

  type Key = string

  datatype Outcome = Stored | Compile

  datatype Reason = NoReason | HolderFailed | HolderGone | Shutdown

  /** One lease object. Objects are never reused, so `nat` names stand for their addresses. */
  datatype Lease = Lease(key: Key, holder: nat, holderPid: int, stores: nat, outcome: Option<Outcome>, reason: Reason)

  datatype Entry = Entry(compile: Option<nat>, fetch: Option<nat>)

  /** A store in progress, and the lease it is credited to. */
  datatype Put = Put(key: Key, lease: Option<nat>)

  datatype Event =
    | Granted(session: nat, lease: nat)
    | PutEnded(put: nat, lease: nat, stored: bool)
    | Released(session: nat, lease: nat, stored: bool)
    | Told(session: nat, lease: nat, outcome: Outcome)

  datatype State = State(
    table: map<Key, Entry>,
    leases: map<nat, Lease>,
    sessions: map<nat, int>,
    everOpened: set<nat>,
    puts: map<nat, Put>,
    waiters: map<nat, nat>,
    stopped: bool,
    log: seq<Event>)

  function Init(): State {
    State(map[], map[], map[], {}, map[], map[], false, [])
  }

  // ---- critical sections -----------------------------------------------------------

  function Current(table: map<Key, Entry>, k: Key): Option<nat> {
    if k in table then table[k].compile else None
  }

  /** An entry with neither a lease nor a fetch leaves the table. */
  function SetEntry(table: map<Key, Entry>, k: Key, e: Entry): map<Key, Entry> {
    if e == Entry(None, None) then table - {k} else table[k := e]
  }

  function Decide(s: State, k: Key, l: nat, o: Outcome, r: Reason): State
    requires k in s.table && l in s.leases
  {
    s.(leases := s.leases[l := s.leases[l].(outcome := Some(o), reason := r)],
       table := SetEntry(s.table, k, s.table[k].(compile := None)))
  }

  function CompleteLease(s: State, k: Key, o: Outcome, r: Reason): State
    requires TableOk(s)
  {
    match Current(s.table, k)
    case Some(l) => Decide(s, k, l, o, r)
    case None => if k in s.table then s.(table := SetEntry(s.table, k, s.table[k])) else s
  }

  predicate Expires(s: State, session: nat, k: Key)
    requires TableOk(s)
  {
    Current(s.table, k).Some? &&
    var lease := s.leases[Current(s.table, k).value];
    lease.holder == session && lease.stores == 0
  }

  /** The leases of `keys` are decided as "compile: the holder is gone". */
  function ExpireKeys(s: State, keys: set<Key>): State {
    s.(leases := map l | l in s.leases ::
                   if s.leases[l].key in keys && Current(s.table, s.leases[l].key) == Some(l)
                   then s.leases[l].(outcome := Some(Compile), reason := HolderGone) else s.leases[l],
       table := map k | k in s.table && !(k in keys && s.table[k].fetch.None?) ::
                  if k in keys then s.table[k].(compile := None) else s.table[k])
  }

  function ExpireLeases(s: State, session: nat): State
    requires TableOk(s)
  {
    ExpireKeys(s, set k | k in s.table && Expires(s, session, k))
  }

  predicate PidTaken(s: State, pid: int) {
    pid > 0 && exists x :: x in s.sessions && s.sessions[x] == pid
  }

  function OpenSession(s: State, session: nat, pid: int): State {
    if s.stopped || PidTaken(s, pid) then s
    else s.(sessions := s.sessions[session := pid], everOpened := s.everOpened + {session})
  }

  function CloseSession(s: State, session: nat): State
    requires TableOk(s)
  {
    var s1 := ExpireLeases(s, session);
    s1.(sessions := s1.sessions - {session})
  }

  /** The table, with a new lease held by `session` if the key has none. */
  function WithLease(s: State, session: nat, k: Key, next: nat): State
    requires session in s.sessions
  {
    if Current(s.table, k).Some? then s
    else
      var e := if k in s.table then s.table[k] else Entry(None, None);
      s.(leases := s.leases[next := Lease(k, session, s.sessions[session], 0, None, NoReason)],
         table := s.table[k := e.(compile := Some(next))])
  }

  /** Granted to the holder; anyone else starts waiting on the lease. */
  function Acquire(s: State, session: nat, k: Key, next: nat): State
    requires session in s.sessions && TableOk(s)
  {
    if s.stopped then s
    else
      var s1 := WithLease(s, session, k, next);
      var l := Current(s1.table, k).value;
      if s1.leases[l].holder == session then s1.(log := s1.log + [Granted(session, l)])
      else s1.(waiters := s1.waiters[session := l])
  }

  /** A wait ends: by the outcome if there is one, else by its bound or by shutdown. */
  function EndWait(s: State, session: nat): State
    requires session in s.waiters && s.waiters[session] in s.leases
  {
    var l := s.waiters[session];
    var told := if s.leases[l].outcome.Some? then [Told(session, l, s.leases[l].outcome.value)] else [];
    s.(waiters := s.waiters - {session}, log := s.log + told)
  }

  predicate HeldByOther(s: State, session: nat, k: Key)
    requires TableOk(s)
  {
    Current(s.table, k).Some? && s.leases[Current(s.table, k).value].holder != session
  }

  function Release(s: State, session: nat, k: Key, stored: bool): State
    requires TableOk(s)
  {
    if HeldByOther(s, session, k) then s
    else
      var s1 := if Current(s.table, k).Some?
                then s.(log := s.log + [Released(session, Current(s.table, k).value, stored)]) else s;
      CompleteLease(s1, k, if stored then Stored else Compile, if stored then NoReason else HolderFailed)
  }

  /** A store counts for the lease when its process is the holder's, as far as either is known. */
  predicate Credited(s: State, k: Key, pid: int)
    requires TableOk(s)
  {
    Current(s.table, k).Some? &&
    var holderPid := s.leases[Current(s.table, k).value].holderPid;
    pid == 0 || holderPid == 0 || holderPid == pid
  }

  function PutBegin(s: State, p: nat, k: Key, pid: int): State
    requires TableOk(s)
  {
    if Credited(s, k, pid) then
      var l := Current(s.table, k).value;
      s.(leases := s.leases[l := s.leases[l].(stores := s.leases[l].stores + 1)],
         puts := s.puts[p := Put(k, Some(l))])
    else s.(puts := s.puts[p := Put(k, None)])
  }

  function PutEnd(s: State, p: nat, stored: bool): State
    requires TableOk(s) && p in s.puts
    requires s.puts[p].lease.Some? ==> s.puts[p].lease.value in s.leases && s.leases[s.puts[p].lease.value].stores > 0
  {
    var Put(k, credit) := s.puts[p];
    var s1 := s.(puts := s.puts - {p});
    match credit
    case None => s1
    case Some(l) =>
      var s2 := s1.(leases := s1.leases[l := s1.leases[l].(stores := s1.leases[l].stores - 1)],
                    log := s1.log + [PutEnded(p, l, stored)]);
      if Current(s2.table, k) == Some(l) then
        Decide(s2, k, l, if stored then Stored else Compile, if stored then NoReason else HolderFailed)
      else s2
  }

  function FetchBegin(s: State, k: Key, f: nat): State {
    var e := if k in s.table then s.table[k] else Entry(None, None);
    if e.fetch.Some? then s else s.(table := s.table[k := e.(fetch := Some(f))])
  }

  function FetchEnd(s: State, k: Key, f: nat): State {
    if k in s.table && s.table[k].fetch == Some(f) then
      s.(table := SetEntry(s.table, k, s.table[k].(fetch := None)))
    else s
  }

  function StopAll(s: State): State {
    s.(leases := map l | l in s.leases ::
                   if Current(s.table, s.leases[l].key) == Some(l)
                   then s.leases[l].(outcome := Some(Compile), reason := Shutdown) else s.leases[l],
       table := map[], stopped := true)
  }

  // ---- what every run keeps --------------------------------------------------------

  /** The lease in the table is for that key and is undecided. */
  ghost predicate TableIn(table: map<Key, Entry>, leases: map<nat, Lease>) {
    forall k :: k in table && table[k].compile.Some? ==>
      var l := table[k].compile.value;
      l in leases && leases[l].key == k && leases[l].outcome.None?
  }

  ghost predicate TableOk(s: State) {
    TableIn(s.table, s.leases)
  }

  /** A lease that is still undecided is the one its key has in the table. */
  ghost predicate OneUndecided(table: map<Key, Entry>, leases: map<nat, Lease>) {
    forall l :: l in leases && leases[l].outcome.None? ==> Current(table, leases[l].key) == Some(l)
  }

  /** A lease in the table has an open holder session or a store in progress. */
  ghost predicate Backed(table: map<Key, Entry>, leases: map<nat, Lease>, sessions: map<nat, int>) {
    forall k :: k in table && table[k].compile.Some? ==>
      var l := table[k].compile.value;
      l in leases && (leases[l].holder in sessions || leases[l].stores > 0)
  }

  /** The same for every key but one. */
  ghost predicate BackedBut(table: map<Key, Entry>, leases: map<nat, Lease>, sessions: map<nat, int>, k: Key) {
    forall j :: j != k && j in table && table[j].compile.Some? ==>
      var l := table[j].compile.value;
      l in leases && (leases[l].holder in sessions || leases[l].stores > 0)
  }

  ghost function Credits(puts: map<nat, Put>, l: nat): set<nat> {
    set p | p in puts && puts[p].lease == Some(l)
  }

  /** Each lease counts exactly the stores credited to it. */
  ghost predicate StoresCounted(leases: map<nat, Lease>, puts: map<nat, Put>) {
    && (forall l :: l in leases ==> leases[l].stores == |Credits(puts, l)|)
    && (forall p :: p in puts && puts[p].lease.Some? ==>
          puts[p].lease.value in leases && leases[puts[p].lease.value].key == puts[p].key)
  }

  /** Someone entitled to said so: a credited store that stored, or the holder. */
  ghost predicate SaidStored(log: seq<Event>, l: nat, holder: nat) {
    exists e :: e in log && ((e.PutEnded? && e.lease == l && e.stored) || e == Released(holder, l, true))
  }

  ghost predicate LogOk(leases: map<nat, Lease>, log: seq<Event>) {
    && (forall l :: l in leases && leases[l].outcome == Some(Stored) ==> SaidStored(log, l, leases[l].holder))
    && (forall e :: e in log && e.Granted? ==> e.lease in leases && leases[e.lease].holder == e.session)
    && (forall e :: e in log && e.Told? ==> e.lease in leases && leases[e.lease].outcome == Some(e.outcome))
  }

  ghost predicate SessionsIn(
    sessions: map<nat, int>, everOpened: set<nat>, leases: map<nat, Lease>, waiters: map<nat, nat>)
  {
    && sessions.Keys <= everOpened
    && (forall l :: l in leases ==> leases[l].holder in everOpened)
    && (forall w :: w in waiters ==> w in sessions && waiters[w] in leases)
  }

  ghost predicate SessionsOk(s: State) {
    SessionsIn(s.sessions, s.everOpened, s.leases, s.waiters)
  }

  ghost predicate Inv(s: State) {
    && TableOk(s) && OneUndecided(s.table, s.leases) && Backed(s.table, s.leases, s.sessions)
    && StoresCounted(s.leases, s.puts) && LogOk(s.leases, s.log) && SessionsOk(s)
  }

  // ---- steps and runs --------------------------------------------------------------

  datatype Step =
    | OpenStep(session: nat, pid: int)
    | CloseStep(session: nat)
    | AcquireStep(session: nat, key: Key, next: nat)
    | EndWaitStep(session: nat)
    | ReleaseStep(session: nat, key: Key, stored: bool)
    | PutBeginStep(put: nat, key: Key, pid: int)
    | PutEndStep(put: nat, stored: bool)
    | FetchBeginStep(key: Key, fetch: nat)
    | FetchEndStep(key: Key, fetch: nat)
    | StopStep

  /** A session's requests come one at a time, and new objects are new. */
  ghost predicate Enabled(s: State, step: Step) {
    match step
    case OpenStep(x, _) => x !in s.everOpened
    case CloseStep(x) => x in s.sessions && x !in s.waiters
    case AcquireStep(x, _, next) => x in s.sessions && x !in s.waiters && next !in s.leases
    case EndWaitStep(x) => x in s.waiters
    case ReleaseStep(x, _, _) => x in s.sessions && x !in s.waiters
    case PutBeginStep(p, _, _) => p !in s.puts
    case PutEndStep(p, _) => p in s.puts
    case _ => true
  }

  lemma CreditIsCounted(s: State, p: nat)
    requires StoresCounted(s.leases, s.puts) && p in s.puts && s.puts[p].lease.Some?
    ensures s.puts[p].lease.value in s.leases && s.leases[s.puts[p].lease.value].stores > 0
  {
    assert p in Credits(s.puts, s.puts[p].lease.value);
  }

  ghost function Next(s: State, step: Step): State
    requires Inv(s) && Enabled(s, step)
  {
    match step
    case OpenStep(x, pid) => OpenSession(s, x, pid)
    case CloseStep(x) => CloseSession(s, x)
    case AcquireStep(x, k, next) => Acquire(s, x, k, next)
    case EndWaitStep(x) => EndWait(s, x)
    case ReleaseStep(x, k, stored) => Release(s, x, k, stored)
    case PutBeginStep(p, k, pid) => PutBegin(s, p, k, pid)
    case PutEndStep(p, stored) =>
      (if s.puts[p].lease.Some? then CreditIsCounted(s, p); PutEnd(s, p, stored) else PutEnd(s, p, stored))
    case FetchBeginStep(k, f) => FetchBegin(s, k, f)
    case FetchEndStep(k, f) => FetchEnd(s, k, f)
    case StopStep => StopAll(s)
  }

  /** Decided leases never change their minds, and leases keep their key and holder. */
  ghost predicate Evolves(s: State, s': State) {
    && (forall l :: l in s.leases ==>
          && l in s'.leases
          && s'.leases[l].key == s.leases[l].key && s'.leases[l].holder == s.leases[l].holder
          && (s.leases[l].outcome.Some? ==>
                s'.leases[l].outcome == s.leases[l].outcome && s'.leases[l].reason == s.leases[l].reason))
    && s.log <= s'.log
  }

  /** The only steps that may decide lease `l`. */
  ghost predicate MayDecide(s: State, step: Step, l: nat)
    requires l in s.leases
  {
    match step
    case PutEndStep(p, _) => p in s.puts && s.puts[p].lease == Some(l)
    case ReleaseStep(x, k, _) => x == s.leases[l].holder && k == s.leases[l].key
    case CloseStep(x) => x == s.leases[l].holder && s.leases[l].stores == 0
    case StopStep => true
    case _ => false
  }

  /** A step that decided a lease was entitled to: a late store or release never completes a newer lease. */
  ghost predicate DecidedRightly(s: State, step: Step, s': State) {
    forall l :: l in s.leases && s.leases[l].outcome.None? && l in s'.leases && s'.leases[l].outcome.Some? ==>
      MayDecide(s, step, l)
  }

  ghost predicate StepOk(s: State, step: Step, s': State) {
    Inv(s') && Evolves(s, s') && DecidedRightly(s, step, s')
  }

  lemma LogGrows(leases: map<nat, Lease>, log: seq<Event>, e: Event)
    requires LogOk(leases, log)
    requires e.Granted? ==> e.lease in leases && leases[e.lease].holder == e.session
    requires e.Told? ==> e.lease in leases && leases[e.lease].outcome == Some(e.outcome)
    ensures LogOk(leases, log + [e])
  {
    forall l | l in leases && leases[l].outcome == Some(Stored) ensures SaidStored(log + [e], l, leases[l].holder) {
      var c :| c in log && ((c.PutEnded? && c.lease == l && c.stored) || c == Released(leases[l].holder, l, true));
      assert c in log + [e];
    }
  }

  lemma OpenOk(s: State, x: nat, pid: int)
    requires Inv(s) && x !in s.everOpened
    ensures StepOk(s, OpenStep(x, pid), OpenSession(s, x, pid))
  {
  }

  lemma NewLeaseTable(table: map<Key, Entry>, leases: map<nat, Lease>, sessions: map<nat, int>, next: nat,
                      lease: Lease, e: Entry)
    requires TableIn(table, leases) && OneUndecided(table, leases) && Backed(table, leases, sessions)
    requires Current(table, lease.key).None? && next !in leases && lease.outcome.None? && lease.holder in sessions
    ensures var table', leases' := table[lease.key := e.(compile := Some(next))], leases[next := lease];
            TableIn(table', leases') && OneUndecided(table', leases') && Backed(table', leases', sessions)
  {
  }

  lemma NewLeaseCounted(leases: map<nat, Lease>, puts: map<nat, Put>, next: nat, lease: Lease)
    requires StoresCounted(leases, puts) && next !in leases && lease.stores == 0
    ensures StoresCounted(leases[next := lease], puts)
  {
    assert Credits(puts, next) == {};
  }

  lemma NewLeaseLogged(leases: map<nat, Lease>, log: seq<Event>, next: nat, lease: Lease)
    requires LogOk(leases, log) && next !in leases && lease.outcome.None?
    ensures LogOk(leases[next := lease], log)
  {
    LogKept(leases, leases[next := lease], log);
  }

  lemma AddLeaseOk(s: State, next: nat, lease: Lease, e: Entry)
    requires Inv(s) && next !in s.leases && Current(s.table, lease.key).None?
    requires lease.holder in s.sessions && lease.stores == 0 && lease.outcome.None?
    ensures Inv(s.(leases := s.leases[next := lease], table := s.table[lease.key := e.(compile := Some(next))]))
  {
    NewLeaseTable(s.table, s.leases, s.sessions, next, lease, e);
    NewLeaseCounted(s.leases, s.puts, next, lease);
    NewLeaseLogged(s.leases, s.log, next, lease);
  }

  lemma NewLeaseOk(s: State, x: nat, k: Key, next: nat)
    requires Inv(s) && x in s.sessions && next !in s.leases
    ensures Inv(WithLease(s, x, k, next)) && Evolves(s, WithLease(s, x, k, next))
  {
    if Current(s.table, k).None? {
      var e, lease := if k in s.table then s.table[k] else Entry(None, None),
                      Lease(k, x, s.sessions[x], 0, None, NoReason);
      AddLeaseOk(s, next, lease, e);
    }
  }

  lemma AcquireOk(s: State, x: nat, k: Key, next: nat)
    requires Inv(s) && Enabled(s, AcquireStep(x, k, next))
    ensures StepOk(s, AcquireStep(x, k, next), Acquire(s, x, k, next))
  {
    if !s.stopped {
      var s1 := WithLease(s, x, k, next);
      NewLeaseOk(s, x, k, next);
      var l := Current(s1.table, k).value;
      if s1.leases[l].holder == x {
        LogGrows(s1.leases, s1.log, Granted(x, l));
      }
    }
  }

  lemma EndWaitOk(s: State, x: nat)
    requires Inv(s) && x in s.waiters
    ensures StepOk(s, EndWaitStep(x), EndWait(s, x))
  {
    var l := s.waiters[x];
    if s.leases[l].outcome.Some? {
      LogGrows(s.leases, s.log, Told(x, l, s.leases[l].outcome.value));
    }
  }

  /** Deciding the table's lease keeps everything, if "stored" was said by someone entitled to. */
  lemma DecideTable(s: State, k: Key, l: nat, o: Outcome, r: Reason)
    requires TableOk(s) && OneUndecided(s.table, s.leases) && SessionsOk(s)
    requires BackedBut(s.table, s.leases, s.sessions, k) && Current(s.table, k) == Some(l)
    ensures var s' := Decide(s, k, l, o, r);
            && TableOk(s') && OneUndecided(s'.table, s'.leases)
            && SessionsOk(s') && Backed(s'.table, s'.leases, s'.sessions)
  {
  }

  lemma DecideOk(s: State, k: Key, l: nat, o: Outcome, r: Reason)
    requires TableOk(s) && OneUndecided(s.table, s.leases) && SessionsOk(s)
    requires LogOk(s.leases, s.log) && StoresCounted(s.leases, s.puts)
    requires BackedBut(s.table, s.leases, s.sessions, k) && Current(s.table, k) == Some(l)
    requires o == Stored ==> SaidStored(s.log, l, s.leases[l].holder)
    ensures Inv(Decide(s, k, l, o, r)) && Evolves(s, Decide(s, k, l, o, r))
    ensures forall m :: m in s.leases && m != l ==> Decide(s, k, l, o, r).leases[m] == s.leases[m]
  {
    DecideTable(s, k, l, o, r);
  }

  lemma EvolvesTrans(s: State, s1: State, s2: State)
    requires Evolves(s, s1) && Evolves(s1, s2)
    ensures Evolves(s, s2)
  {
  }

  /** A step that books an event and then decides one lease it may decide. */
  lemma DecideStepOk(s: State, step: Step, s1: State, k: Key, l: nat, o: Outcome, r: Reason)
    requires Inv(s) && Evolves(s, s1) && s1.leases.Keys == s.leases.Keys
    requires forall m :: m in s.leases ==> s1.leases[m].outcome == s.leases[m].outcome
    requires l in s.leases && MayDecide(s, step, l) && Current(s1.table, k) == Some(l) && l in s1.leases
    requires k in s1.table && Inv(Decide(s1, k, l, o, r)) && Evolves(s1, Decide(s1, k, l, o, r))
    requires forall m :: m in s1.leases && m != l ==> Decide(s1, k, l, o, r).leases[m] == s1.leases[m]
    ensures StepOk(s, step, Decide(s1, k, l, o, r))
  {
    EvolvesTrans(s, s1, Decide(s1, k, l, o, r));
  }

  /** Both together: the event is booked, and what is decided may be. */
  lemma BookedThenDecided(s: State, step: Step, s1: State, k: Key, l: nat, o: Outcome, r: Reason)
    requires Inv(s) && Evolves(s, s1) && s1.leases.Keys == s.leases.Keys
    requires forall m :: m in s.leases ==> s1.leases[m].outcome == s.leases[m].outcome
    requires l in s.leases && MayDecide(s, step, l) && Current(s1.table, k) == Some(l) && l in s1.leases
    requires TableOk(s1) && OneUndecided(s1.table, s1.leases) && SessionsOk(s1)
    requires LogOk(s1.leases, s1.log) && StoresCounted(s1.leases, s1.puts)
    requires BackedBut(s1.table, s1.leases, s1.sessions, k)
    requires o == Stored ==> SaidStored(s1.log, l, s1.leases[l].holder)
    ensures StepOk(s, step, Decide(s1, k, l, o, r))
  {
    DecideOk(s1, k, l, o, r);
    DecideStepOk(s, step, s1, k, l, o, r);
  }

  lemma ReleaseOk(s: State, x: nat, k: Key, stored: bool)
    requires Inv(s) && Enabled(s, ReleaseStep(x, k, stored))
    ensures StepOk(s, ReleaseStep(x, k, stored), Release(s, x, k, stored))
  {
    if Current(s.table, k).Some? {
      if !HeldByOther(s, x, k) {
        var l := Current(s.table, k).value;
        var e := Released(x, l, stored);
        LogGrows(s.leases, s.log, e);
        var s1 := s.(log := s.log + [e]);
        assert e in s1.log;
        var o, r := if stored then Stored else Compile, if stored then NoReason else HolderFailed;
        BookedThenDecided(s, ReleaseStep(x, k, stored), s1, k, l, o, r);
      }
    } else {
      SameLeases(s, ReleaseStep(x, k, stored), Release(s, x, k, stored));
    }
  }

  lemma CreditsWith(puts: map<nat, Put>, p: nat, put: Put, l: nat)
    requires p !in puts
    ensures |Credits(puts[p := put], l)| == |Credits(puts, l)| + (if put.lease == Some(l) then 1 else 0)
  {
    assert Credits(puts[p := put], l) == Credits(puts, l) + (if put.lease == Some(l) then {p} else {});
  }

  lemma CreditsWithout(puts: map<nat, Put>, p: nat, l: nat)
    requires p in puts
    ensures |Credits(puts - {p}, l)| == |Credits(puts, l)| - (if puts[p].lease == Some(l) then 1 else 0)
  {
    assert Credits(puts - {p}, l) == Credits(puts, l) - (if puts[p].lease == Some(l) then {p} else {});
  }

  lemma CreditAdded(leases: map<nat, Lease>, puts: map<nat, Put>, p: nat, put: Put)
    requires StoresCounted(leases, puts) && p !in puts
    requires put.lease.Some? ==> put.lease.value in leases && leases[put.lease.value].key == put.key
    ensures StoresCounted(Recount(leases, put, 1), puts[p := put])
  {
    var leases' := Recount(leases, put, 1);
    forall l | l in leases' ensures leases'[l].stores == |Credits(puts[p := put], l)| {
      CreditsWith(puts, p, put, l);
    }
  }

  lemma CreditRemoved(leases: map<nat, Lease>, puts: map<nat, Put>, p: nat)
    requires StoresCounted(leases, puts) && p in puts
    ensures StoresCounted(Recount(leases, puts[p], -1), puts - {p})
  {
    var leases' := Recount(leases, puts[p], -1);
    forall l | l in leases' ensures leases'[l].stores == |Credits(puts - {p}, l)| {
      CreditsWithout(puts, p, l);
    }
  }

  /** The leases with one store more or fewer for the lease `put` is credited to. */
  function Recount(leases: map<nat, Lease>, put: Put, change: int): map<nat, Lease> {
    if put.lease.Some? && put.lease.value in leases && leases[put.lease.value].stores + change >= 0
    then leases[put.lease.value := leases[put.lease.value].(stores := leases[put.lease.value].stores + change)]
    else leases
  }

  /** The log still explains the outcomes when none became "stored". */
  lemma LogKept(leases: map<nat, Lease>, leases': map<nat, Lease>, log: seq<Event>)
    requires LogOk(leases, log)
    requires forall l :: l in leases ==> l in leases' && leases'[l].holder == leases[l].holder
                                         && (leases[l].outcome.Some? ==> leases'[l].outcome == leases[l].outcome)
    requires forall l :: l in leases' && leases'[l].outcome == Some(Stored) ==>
                           l in leases && leases[l].outcome == Some(Stored)
    ensures LogOk(leases', log)
  {
    forall l | l in leases' && leases'[l].outcome == Some(Stored) ensures SaidStored(log, l, leases'[l].holder) {
      assert SaidStored(log, l, leases[l].holder);
    }
  }

  /** A step that only counts stores of undecided or decided leases, never below one that is needed. */
  lemma CountsOnly(s: State, step: Step, s': State)
    requires Inv(s) && s' == s.(leases := s'.leases, puts := s'.puts) && s'.leases.Keys == s.leases.Keys
    requires forall l :: l in s.leases ==>
               s'.leases[l] == s.leases[l].(stores := s'.leases[l].stores) && s'.leases[l].stores >= s.leases[l].stores
    requires StoresCounted(s'.leases, s'.puts)
    ensures StepOk(s, step, s')
  {
    LogKept(s.leases, s'.leases, s.log);
  }

  lemma PutBeginOk(s: State, p: nat, k: Key, pid: int)
    requires Inv(s) && p !in s.puts
    ensures StepOk(s, PutBeginStep(p, k, pid), PutBegin(s, p, k, pid))
  {
    var s' := PutBegin(s, p, k, pid);
    var put := Put(k, if Credited(s, k, pid) then Current(s.table, k) else None);
    CreditAdded(s.leases, s.puts, p, put);
    assert s' == s.(leases := Recount(s.leases, put, 1), puts := s.puts[p := put]);
    CountsOnly(s, PutBeginStep(p, k, pid), s');
  }

  /** The accounting half of a store's end. */
  function Uncredit(s: State, p: nat, l: nat, stored: bool): State
    requires p in s.puts && l in s.leases && s.leases[l].stores > 0
  {
    s.(puts := s.puts - {p},
       leases := s.leases[l := s.leases[l].(stores := s.leases[l].stores - 1)],
       log := s.log + [PutEnded(p, l, stored)])
  }

  lemma UncreditOk(s: State, p: nat, l: nat, stored: bool)
    requires Inv(s) && p in s.puts && s.puts[p].lease == Some(l) && l in s.leases && s.leases[l].stores > 0
    ensures var s1 := Uncredit(s, p, l, stored);
            && TableOk(s1) && OneUndecided(s1.table, s1.leases) && SessionsOk(s1) && LogOk(s1.leases, s1.log)
            && StoresCounted(s1.leases, s1.puts) && Evolves(s, s1)
            && (stored ==> SaidStored(s1.log, l, s1.leases[l].holder))
  {
    var s1 := Uncredit(s, p, l, stored);
    CreditRemoved(s.leases, s.puts, p);
    assert s1.leases == Recount(s.leases, s.puts[p], -1);
    var e := PutEnded(p, l, stored);
    LogGrows(s.leases, s.log, e);
    LogKept(s.leases, s1.leases, s1.log);
    assert e in s1.log;
  }

  lemma UncreditBacked(s: State, p: nat, l: nat, stored: bool)
    requires Inv(s) && p in s.puts && l in s.leases && s.leases[l].stores > 0
    requires Current(s.table, s.puts[p].key) == Some(l)
    ensures var s1 := Uncredit(s, p, l, stored); BackedBut(s1.table, s1.leases, s1.sessions, s.puts[p].key)
  {
  }

  /** A store credited to a lease already decided changes nothing else. */
  lemma UncreditAlone(s: State, p: nat, l: nat, stored: bool)
    requires Inv(s) && p in s.puts && s.puts[p].lease == Some(l) && l in s.leases && s.leases[l].stores > 0
    requires Current(s.table, s.puts[p].key) != Some(l)
    ensures StepOk(s, PutEndStep(p, stored), Uncredit(s, p, l, stored))
  {
    UncreditOk(s, p, l, stored);
  }

  /** A store credited to the lease in the table decides it. */
  lemma UncreditDecides(s: State, p: nat, l: nat, stored: bool)
    requires Inv(s) && p in s.puts && s.puts[p].lease == Some(l) && l in s.leases && s.leases[l].stores > 0
    requires Current(s.table, s.puts[p].key) == Some(l)
    ensures var o, r := if stored then Stored else Compile, if stored then NoReason else HolderFailed;
            StepOk(s, PutEndStep(p, stored), Decide(Uncredit(s, p, l, stored), s.puts[p].key, l, o, r))
  {
    UncreditOk(s, p, l, stored);
    UncreditBacked(s, p, l, stored);
    var s1, k := Uncredit(s, p, l, stored), s.puts[p].key;
    var o, r := if stored then Stored else Compile, if stored then NoReason else HolderFailed;
    BookedThenDecided(s, PutEndStep(p, stored), s1, k, l, o, r);
  }

  lemma PutEndOk(s: State, p: nat, stored: bool)
    requires Inv(s) && p in s.puts
    ensures StepOk(s, PutEndStep(p, stored), Next(s, PutEndStep(p, stored)))
  {
    var Put(k, credit) := s.puts[p];
    if credit.Some? {
      var l := credit.value;
      CreditIsCounted(s, p);
      UncreditOk(s, p, l, stored);
      var s1 := Uncredit(s, p, l, stored);
      if Current(s1.table, k) == Some(l) {
        UncreditDecides(s, p, l, stored);
      } else {
        UncreditAlone(s, p, l, stored);
      }
    } else {
      CreditRemoved(s.leases, s.puts, p);
      CountsOnly(s, PutEndStep(p, stored), s.(puts := s.puts - {p}));
    }
  }

  /** Deciding several leases at once, none of them as "stored". */
  ghost predicate Settles(s: State, s': State, chosen: set<nat>) {
    && s'.leases.Keys == s.leases.Keys && s'.log == s.log && s'.puts == s.puts
    && (forall l :: l in s.leases ==>
          if l in chosen then s'.leases[l] == s.leases[l].(outcome := Some(Compile), reason := s'.leases[l].reason)
          else s'.leases[l] == s.leases[l])
    && (forall l :: l in chosen ==> l in s.leases && s.leases[l].outcome.None?)
  }

  lemma SettlesEvolves(s: State, s': State, chosen: set<nat>)
    requires Inv(s) && Settles(s, s', chosen)
    ensures Evolves(s, s') && LogOk(s'.leases, s'.log) && StoresCounted(s'.leases, s'.puts)
    ensures forall l :: l in s.leases && s.leases[l].outcome.None? && s'.leases[l].outcome.Some? ==> l in chosen
  {
    LogKept(s.leases, s'.leases, s.log);
  }

  ghost function LeasesOf(s: State, keys: set<Key>): set<nat> {
    set l | l in s.leases && s.leases[l].key in keys && Current(s.table, s.leases[l].key) == Some(l)
  }

  ghost predicate AllHeld(s: State, keys: set<Key>) {
    forall k :: k in keys ==> Current(s.table, k).Some?
  }

  lemma ExpireTable(s: State, keys: set<Key>)
    requires TableOk(s) && OneUndecided(s.table, s.leases) && AllHeld(s, keys)
    ensures var s1 := ExpireKeys(s, keys);
            && TableOk(s1) && OneUndecided(s1.table, s1.leases) && Settles(s, s1, LeasesOf(s, keys))
            && forall k :: Current(s1.table, k) == if k in keys then None else Current(s.table, k)
  {
  }

  lemma CloseBacked(s: State, x: nat, keys: set<Key>)
    requires Inv(s) && keys == set k | k in s.table && Expires(s, x, k)
    ensures var s1 := ExpireKeys(s, keys); Backed(s1.table, s1.leases, s.sessions - {x})
  {
    var s1 := ExpireKeys(s, keys);
    ExpireTable(s, keys);
    forall k | k in s1.table && s1.table[k].compile.Some?
      ensures var l := s1.table[k].compile.value;
              l in s1.leases && (s1.leases[l].holder in s.sessions - {x} || s1.leases[l].stores > 0)
    {
      assert Current(s1.table, k) == Current(s.table, k) && !Expires(s, x, k);
    }
  }

  lemma CloseOk(s: State, x: nat)
    requires Inv(s) && x in s.sessions && x !in s.waiters
    ensures StepOk(s, CloseStep(x), CloseSession(s, x))
  {
    var keys := set k | k in s.table && Expires(s, x, k);
    ExpireTable(s, keys);
    SettlesEvolves(s, ExpireKeys(s, keys), LeasesOf(s, keys));
    CloseBacked(s, x, keys);
    CloseSessions(s, x, ExpireKeys(s, keys));
  }

  lemma CloseSessions(s: State, x: nat, s1: State)
    requires SessionsOk(s) && x !in s.waiters && s1 == s.(leases := s1.leases, table := s1.table)
    requires s1.leases.Keys == s.leases.Keys && forall l :: l in s.leases ==> s1.leases[l].holder == s.leases[l].holder
    ensures SessionsOk(s1.(sessions := s1.sessions - {x}))
  {
  }

  lemma FetchBeginOk(s: State, k: Key, f: nat)
    requires Inv(s)
    ensures StepOk(s, FetchBeginStep(k, f), FetchBegin(s, k, f))
  {
    SameLeases(s, FetchBeginStep(k, f), FetchBegin(s, k, f));
  }

  lemma FetchEndOk(s: State, k: Key, f: nat)
    requires Inv(s)
    ensures StepOk(s, FetchEndStep(k, f), FetchEnd(s, k, f))
  {
    SameLeases(s, FetchEndStep(k, f), FetchEnd(s, k, f));
  }

  /** A step that leaves every key's lease alone. */
  lemma SameLeases(s: State, step: Step, s': State)
    requires Inv(s) && s' == s.(table := s'.table) && forall k :: Current(s'.table, k) == Current(s.table, k)
    ensures StepOk(s, step, s')
  {
    forall k | k in s'.table && s'.table[k].compile.Some? ensures Current(s.table, k) == s'.table[k].compile {
      assert Current(s'.table, k) == Current(s.table, k);
    }
  }

  lemma StopSettles(s: State)
    requires TableOk(s) && OneUndecided(s.table, s.leases)
    ensures Settles(s, StopAll(s), set l | l in s.leases && Current(s.table, s.leases[l].key) == Some(l))
    ensures OneUndecided(map[], StopAll(s).leases)
  {
  }

  lemma StopKeeps(s: State)
    requires Inv(s)
    ensures Inv(StopAll(s)) && Evolves(s, StopAll(s))
  {
    StopSettles(s);
    SettlesEvolves(s, StopAll(s), set l | l in s.leases && Current(s.table, s.leases[l].key) == Some(l));
    assert SessionsOk(StopAll(s)) && TableOk(StopAll(s));
  }

  lemma StopOk(s: State)
    requires Inv(s)
    ensures StepOk(s, StopStep, StopAll(s))
  {
    StopKeeps(s);
  }

  lemma StepKeeps(s: State, step: Step)
    requires Inv(s) && Enabled(s, step)
    ensures StepOk(s, step, Next(s, step))
  {
    match step
    case OpenStep(x, pid) => OpenOk(s, x, pid);
    case CloseStep(x) => CloseOk(s, x);
    case AcquireStep(x, k, next) => AcquireOk(s, x, k, next);
    case EndWaitStep(x) => EndWaitOk(s, x);
    case ReleaseStep(x, k, stored) => ReleaseOk(s, x, k, stored);
    case PutBeginStep(p, k, pid) => PutBeginOk(s, p, k, pid);
    case PutEndStep(p, stored) => PutEndOk(s, p, stored);
    case FetchBeginStep(k, f) => FetchBeginOk(s, k, f);
    case FetchEndStep(k, f) => FetchEndOk(s, k, f);
    case StopStep => StopOk(s);
  }

  ghost predicate IsRun(s: State, steps: seq<Step>)
    requires Inv(s)
    decreases |steps|
  {
    steps == [] || (Enabled(s, steps[0]) && (StepKeeps(s, steps[0]); IsRun(Next(s, steps[0]), steps[1..])))
  }

  ghost function After(s: State, steps: seq<Step>): State
    requires Inv(s) && IsRun(s, steps)
    decreases |steps|
  {
    if steps == [] then s else (StepKeeps(s, steps[0]); After(Next(s, steps[0]), steps[1..]))
  }

  /** Over every run: the invariants hold at the end, and no decided lease was decided again. */
  lemma {:induction false} RunEvolves(s: State, steps: seq<Step>)
    requires Inv(s) && IsRun(s, steps)
    ensures Inv(After(s, steps)) && Evolves(s, After(s, steps))
    decreases |steps|
  {
    if steps != [] {
      StepKeeps(s, steps[0]);
      RunEvolves(Next(s, steps[0]), steps[1..]);
      EvolvesTrans(s, Next(s, steps[0]), After(s, steps));
    }
  }

  /** Two leases of one key, neither decided yet. */
  ghost predicate SameOpenLeaseKey(s: State, l: nat, l': nat)
    requires l in s.leases && l' in s.leases
  {
    s.leases[l].key == s.leases[l'].key && s.leases[l].outcome.None? && s.leases[l'].outcome.None?
  }

  /**
   The lease protocol, after any run: a key has at most one holder whose lease
   is undecided, grants go to holders only, every lease in the table has an open
   holder session or a store in progress, and a waiter was told "stored" only if
   a store credited to that lease stored or its holder released it as stored.
   */
  lemma LeaseProtocol(steps: seq<Step>)
    requires IsRun(Init(), steps)
    ensures var s := After(Init(), steps);
            && (forall e, e' :: e in s.log && e' in s.log && e.Granted? && e'.Granted? ==>
                  && e.lease in s.leases && e'.lease in s.leases
                  && (SameOpenLeaseKey(s, e.lease, e'.lease) ==> e.session == e'.session))
            && Backed(s.table, s.leases, s.sessions)
            && (forall e :: e in s.log && e.Told? && e.outcome == Stored ==>
                  e.lease in s.leases && SaidStored(s.log, e.lease, s.leases[e.lease].holder))
  {
    RunEvolves(Init(), steps);
  }
}

/** The lease table as the daemon keeps it, updated in place by the request handlers. */
module LeaseServerClass {
  import opened Common
  import opened LeaseModel

  class LeaseServer {
    var table: map<Key, Entry>
    var leases: map<nat, Lease>
    var sessions: map<nat, int>
    var puts: map<nat, Put>
    var waiters: map<nat, nat>
    var stopped: bool
    var expired: nat
    ghost var everOpened: set<nat>
    ghost var log: seq<Event>

    ghost function View(): State
      reads this
    {
      State(table, leases, sessions, everOpened, puts, waiters, stopped, log)
    }

    constructor ()
      ensures View() == Init()
    {
      table, leases, sessions, puts, waiters := map[], map[], map[], map[], map[];
      stopped, expired, everOpened, log := false, 0, {}, [];
    }

    /** Sets the outcome once and drops the entry when nothing is left in it. */
    method CompleteLease(k: Key, o: Outcome, r: Reason)
      requires TableOk(View())
      modifies this`table, this`leases
      ensures View() == LeaseModel.CompleteLease(old(View()), k, o, r)
    {
      if k !in table {
        return;
      }
      var entry := table[k];
      if entry.compile.Some? && leases[entry.compile.value].outcome.None? {
        var l := entry.compile.value;
        leases := leases[l := leases[l].(outcome := Some(o), reason := r)];
        entry := entry.(compile := None);
      }
      table := table[k := entry];
      if entry.compile.None? && entry.fetch.None? {
        table := table - {k};
      }
    }

    /** The keys whose lease this session holds and no store is about to decide. */
    method ExpiringKeys(session: nat) returns (keys: set<Key>)
      requires TableOk(View())
      ensures keys == set k | k in table && Expires(View(), session, k)
    {
      keys := {};
      var todo := table.Keys;
      while todo != {}
        invariant todo <= table.Keys
        invariant keys == set k | k in table.Keys - todo && Expires(View(), session, k)
        decreases |todo|
      {
        var k :| k in todo;
        var compile := table[k].compile;
        if compile.Some? && leases[compile.value].holder == session && leases[compile.value].stores == 0 {
          keys := keys + {k};
        }
        todo := todo - {k};
      }
    }

    method ExpireOne(k: Key, ghost was: State, ghost done: set<Key>)
      requires TableOk(was) && OneUndecided(was.table, was.leases) && k !in done && AllHeld(was, done + {k})
      requires View() == ExpireKeys(was, done)
      modifies this`table, this`leases, this`expired
      ensures View() == ExpireKeys(was, done + {k}) && expired == old(expired) + 1
    {
      ExpireOneMore(was, done, k);
      expired := expired + 1;
      CompleteLease(k, Compile, HolderGone);
    }

    /** Completes the lease of each key in turn. */
    method CompleteAll(keys: set<Key>)
      requires TableOk(View()) && OneUndecided(table, leases) && AllHeld(View(), keys)
      modifies this`table, this`leases, this`expired
      ensures View() == ExpireKeys(old(View()), keys) && expired == old(expired) + |keys|
    {
      ghost var was := View();
      var todo := keys;
      ghost var done: set<Key> := {};
      ExpireNone(was);
      while todo != {}
        invariant done + todo == keys && done !! todo
        invariant View() == ExpireKeys(was, done)
        invariant expired == old(expired) + |done|
        decreases |todo|
      {
        var k :| k in todo;
        AllHeldPart(was, keys, done + {k});
        ExpireOne(k, was, done);
        done := done + {k};
        todo := todo - {k};
      }
      assert done == keys;
    }

    method ExpireLeases(session: nat)
      requires TableOk(View()) && OneUndecided(table, leases)
      modifies this`table, this`leases, this`expired
      ensures View() == LeaseModel.ExpireLeases(old(View()), session)
      ensures expired == old(expired) + |set k | k in old(table) && Expires(old(View()), session, k)|
    {
      var keys := ExpiringKeys(session);
      CompleteAll(keys);
    }

    method OpenSession(session: nat, pid: int) returns (ok: bool)
      modifies this
      ensures View() == LeaseModel.OpenSession(old(View()), session, pid)
      ensures ok <==> !old(stopped) && !PidTaken(old(View()), pid)
    {
      var pidAlreadyOpen := false;
      var todo := sessions.Keys;
      while todo != {}
        invariant todo <= sessions.Keys
        invariant pidAlreadyOpen <==> pid > 0 && exists x :: x in sessions && x !in todo && sessions[x] == pid
        decreases |todo|
        modifies {}
      {
        var x :| x in todo;
        if pid > 0 && sessions[x] == pid {
          pidAlreadyOpen := true;
        }
        todo := todo - {x};
      }
      ok := !stopped && !pidAlreadyOpen;
      if ok {
        sessions := sessions[session := pid];
        everOpened := everOpened + {session};
      }
    }

    method CloseSession(session: nat)
      requires Inv(View())
      modifies this
      ensures View() == LeaseModel.CloseSession(old(View()), session)
    {
      ExpireLeases(session);
      sessions := sessions - {session};
    }

    /** `granted` is the reply "compile it yourself, the others wait"; otherwise the caller waits on the lease. */
    method Acquire(session: nat, k: Key, next: nat) returns (granted: bool)
      requires TableOk(View()) && session in sessions
      modifies this
      ensures View() == LeaseModel.Acquire(old(View()), session, k, next)
      ensures granted <==> Current(table, k).Some? && !stopped && leases[Current(table, k).value].holder == session
    {
      if stopped {
        return false;
      }
      var entry := if k in table then table[k] else Entry(None, None);
      if entry.compile.None? {
        leases := leases[next := Lease(k, session, sessions[session], 0, None, NoReason)];
        entry := entry.(compile := Some(next));
        table := table[k := entry];
      }
      var l := entry.compile.value;
      granted := leases[l].holder == session;
      if granted {
        log := log + [Granted(session, l)];
      } else {
        waiters := waiters[session := l];
      }
    }

    method EndWait(session: nat) returns (told: Option<Outcome>)
      requires session in waiters && waiters[session] in leases
      modifies this
      ensures View() == LeaseModel.EndWait(old(View()), session)
      ensures told == old(leases)[old(waiters)[session]].outcome
    {
      var l := waiters[session];
      waiters := waiters - {session};
      told := leases[l].outcome;
      if told.Some? {
        log := log + [Told(session, l, told.value)];
      }
    }

    method Release(session: nat, k: Key, stored: bool) returns (ok: bool)
      requires TableOk(View())
      modifies this
      ensures View() == LeaseModel.Release(old(View()), session, k, stored)
      ensures ok <==> !HeldByOther(old(View()), session, k)
    {
      if k in table && table[k].compile.Some? && leases[table[k].compile.value].holder != session {
        return false;
      }
      if k in table && table[k].compile.Some? {
        log := log + [Released(session, table[k].compile.value, stored)];
      }
      CompleteLease(k, if stored then Stored else Compile, if stored then NoReason else HolderFailed);
      ok := true;
    }

    method PutBegin(p: nat, k: Key, pid: int)
      requires TableOk(View())
      modifies this
      ensures View() == LeaseModel.PutBegin(old(View()), p, k, pid)
    {
      var credit: Option<nat> := None;
      if k in table && table[k].compile.Some? {
        var l := table[k].compile.value;
        var holderPid := leases[l].holderPid;
        if pid == 0 || holderPid == 0 || holderPid == pid {
          credit := Some(l);
          leases := leases[l := leases[l].(stores := leases[l].stores + 1)];
        }
      }
      puts := puts[p := Put(k, credit)];
    }

    method PutEnd(p: nat, stored: bool)
      requires Inv(View()) && p in puts
      modifies this
      ensures View() == LeaseModel.Next(old(View()), PutEndStep(p, stored))
    {
      var Put(k, credit) := puts[p];
      puts := puts - {p};
      if credit.Some? {
        var l := credit.value;
        CreditIsCounted(old(View()), p);
        leases := leases[l := leases[l].(stores := leases[l].stores - 1)];
        log := log + [PutEnded(p, l, stored)];
        if k in table && table[k].compile == Some(l) {
          CompleteLease(k, if stored then Stored else Compile, if stored then NoReason else HolderFailed);
        }
      }
    }

    method Shutdown()
      requires TableOk(View())
      modifies this`table, this`leases, this`stopped
      ensures View() == StopAll(old(View()))
    {
      stopped := true;
      ghost var was := old(View());
      var todo := table.Keys;
      while todo != {}
        invariant todo <= table.Keys && leases.Keys == was.leases.Keys
        invariant forall l :: l in leases ==>
                    leases[l] == if was.leases[l].key in todo then was.leases[l] else StopAll(was).leases[l]
        decreases |todo|
        modifies this`leases
      {
        var k :| k in todo;
        var compile := table[k].compile;
        if compile.Some? {
          leases := leases[compile.value :=
            leases[compile.value].(outcome := Some(Compile), reason := Reason.Shutdown)];
        }
        todo := todo - {k};
      }
      table := map[];
    }
  }

  lemma ExpireNone(s: State)
    ensures ExpireKeys(s, {}) == s
  {
  }

  lemma AllHeldPart(s: State, keys: set<Key>, part: set<Key>)
    requires AllHeld(s, keys) && part <= keys
    ensures AllHeld(s, part)
  {
  }

  lemma ExpireOneLease(s: State, done: set<Key>, k: Key, l: nat)
    requires TableOk(s) && k !in done && Current(s.table, k) == Some(l)
    ensures l in ExpireKeys(s, done).leases
    ensures ExpireKeys(s, done + {k}).leases ==
            ExpireKeys(s, done).leases[l :=
              ExpireKeys(s, done).leases[l].(outcome := Some(Compile), reason := HolderGone)]
  {
  }

  lemma ExpireOneEntry(s: State, done: set<Key>, k: Key)
    requires k in s.table && k !in done
    ensures k in ExpireKeys(s, done).table && ExpireKeys(s, done).table[k] == s.table[k]
    ensures ExpireKeys(s, done + {k}).table == SetEntry(ExpireKeys(s, done).table, k, s.table[k].(compile := None))
  {
  }

  lemma ExpireOneMore(s: State, done: set<Key>, k: Key)
    requires TableOk(s) && OneUndecided(s.table, s.leases) && k !in done && AllHeld(s, done + {k})
    ensures TableOk(ExpireKeys(s, done))
    ensures ExpireKeys(s, done + {k}) == CompleteLease(ExpireKeys(s, done), k, Compile, HolderGone)
  {
    ExpireTable(s, done);
    var s1 := ExpireKeys(s, done);
    var l := s.table[k].compile.value;
    ExpireOneLease(s, done, k, l);
    ExpireOneEntry(s, done, k);
    assert Current(s1.table, k) == Some(l) &&
           CompleteLease(s1, k, Compile, HolderGone) == Decide(s1, k, l, Compile, HolderGone);
  }
}
