/**
 File digests memoised by what stat says about a file. The world is a set of
 inodes with names, a clock, a store of memos and any number of lookups and
 writers whose system calls interleave freely. The content hash is any function.
 */
module FileMemo {
  import opened Common

  type Path = string
  type Digest = string

  /** A writer can change a file within this many nanoseconds without moving its timestamps. */
  const WINDOW := 2_000_000_000

  datatype Inode = Inode(mtime: int, ctime: int, content: string)

  /** Device and inode number as one name, size, and the two timestamps. */
  datatype Identity = Identity(ino: nat, size: nat, mtime: int, ctime: int)

  /** A memo file: a whole digest, or what a crash left of one. */
  datatype Memo = Whole(digest: Digest) | Damaged

  /** A lookup, by the last thing it did. `started` is the clock it was given. */
  datatype Lookup =
    | Started(path: Path, started: int)
    | Stated(path: Path, started: int, before: Identity)
    | Missed(path: Path, started: int, before: Identity)
    | Hashing(path: Path, started: int, before: Identity, ino: nat, disturbed: bool)
    | Hashed(path: Path, started: int, before: Identity, digest: Digest)
    | Approved(before: Identity, digest: Digest)
    | Bare(path: Path)
    | Done(result: Option<Digest>)

  /** `lag` is how far behind the clock a timestamp may be when it is set. */
  datatype World = World(
    lag: nat,
    now: int,
    links: map<Path, nat>,
    inodes: map<nat, Inode>,
    memos: map<Identity, Memo>,
    lookups: map<nat, Lookup>)

  function IdOf(w: World, ino: nat): Identity
    requires ino in w.inodes
  {
    Identity(ino, |w.inodes[ino].content|, w.inodes[ino].mtime, w.inodes[ino].ctime)
  }

  /** What stat answers. */
  function StatIdentity(w: World, p: Path): Option<Identity> {
    if p in w.links && w.links[p] in w.inodes then Some(IdOf(w, w.links[p])) else None
  }

  /** What hashing the file at once, with nobody else about, answers. */
  function HashFile(w: World, p: Path, h: string -> Digest): Option<Digest> {
    if StatIdentity(w, p).Some? then Some(h(w.inodes[w.links[p]].content)) else None
  }

  predicate Settled(before: Identity, started: int) {
    started - before.mtime >= WINDOW && started - before.ctime >= WINDOW
  }

  datatype Step =
    // the rest of the machine
    | Tick(ns: nat)
    | Rewrite(ino: nat, inode: Inode)
    | Create(ino: nat, inode: Inode)
    | Relink(path: Path, ino: nat, ctime: int)
    | Unlink(path: Path)
    | Free(ino: nat)
    | LoseMemo(id: Identity, damaged: bool)
    // a lookup
    | Begin(lookup: nat, path: Path)
    | Stat(lookup: nat)
    | ReadMemo(lookup: nat)
    | OpenFile(lookup: nat)
    | HashBare(lookup: nat)
    | ReadFile(lookup: nat, garbled: Digest)
    | Check(lookup: nat)
    | WriteMemo(lookup: nat)

  /**
   A write or replacement stamps ctime with a clock that lags; an inode goes
   away only when nothing names it or reads it.
   */
  predicate Enabled(w: World, step: Step) {
    match step
    case Rewrite(i, inode) => i in w.inodes && inode.ctime >= w.now - w.lag
    case Create(i, inode) => i !in w.inodes && inode.ctime >= w.now - w.lag
    case Relink(_, i, ctime) => i in w.inodes && ctime >= w.now - w.lag
    case Free(i) => i in w.inodes && (forall p :: p in w.links ==> w.links[p] != i)
                    && (forall l :: l in w.lookups && w.lookups[l].Hashing? ==> w.lookups[l].ino != i)
    case Begin(l, _) => l !in w.lookups
    case Stat(l) => l in w.lookups && w.lookups[l].Started?
    case ReadMemo(l) => l in w.lookups && w.lookups[l].Stated?
    case OpenFile(l) => l in w.lookups && w.lookups[l].Missed?
    case HashBare(l) => l in w.lookups && w.lookups[l].Bare?
    case ReadFile(l, _) => l in w.lookups && w.lookups[l].Hashing?
    case Check(l) => l in w.lookups && w.lookups[l].Hashed?
    case WriteMemo(l) => l in w.lookups && w.lookups[l].Approved?
    case _ => true
  }

  /** Readers of a rewritten inode may see any mixture of its contents. */
  function Disturb(lookups: map<nat, Lookup>, ino: nat): map<nat, Lookup> {
    map l | l in lookups ::
      if lookups[l].Hashing? && lookups[l].ino == ino then lookups[l].(disturbed := true) else lookups[l]
  }

  /** The next state of a lookup, from the first stat to the decision to store. */
  function Advance(w: World, step: Step, h: string -> Digest): Lookup
    requires Enabled(w, step)
    requires (step.Stat? || step.ReadMemo? || step.OpenFile? || step.HashBare? || step.ReadFile? || step.Check?)
  {
    var u := w.lookups[step.lookup];
    match step
    case Stat(_) =>
      var id := StatIdentity(w, u.path);
      if id.Some? then Stated(u.path, u.started, id.value) else Bare(u.path)
    case ReadMemo(_) =>
      if u.before in w.memos && w.memos[u.before].Whole? then Done(Some(w.memos[u.before].digest))
      else Missed(u.path, u.started, u.before)
    case OpenFile(_) =>
      if StatIdentity(w, u.path).Some? then Hashing(u.path, u.started, u.before, w.links[u.path], false) else Done(None)
    case HashBare(_) => Done(HashFile(w, u.path, h))
    case ReadFile(_, garbled) =>
      var whole := !u.disturbed && u.ino in w.inodes;
      Hashed(u.path, u.started, u.before, if whole then h(w.inodes[u.ino].content) else garbled)
    case Check(_) =>
      if Settled(u.before, u.started) && StatIdentity(w, u.path) == Some(u.before) then Approved(u.before, u.digest)
      else Done(Some(u.digest))
  }

  function Next(w: World, step: Step, h: string -> Digest): World
    requires Enabled(w, step)
  {
    match step
    case Tick(ns) => w.(now := w.now + ns)
    case Rewrite(i, inode) => w.(inodes := w.inodes[i := inode], lookups := Disturb(w.lookups, i))
    case Create(i, inode) => w.(inodes := w.inodes[i := inode])
    case Relink(p, i, ctime) => w.(links := w.links[p := i], inodes := w.inodes[i := w.inodes[i].(ctime := ctime)])
    case Unlink(p) => w.(links := w.links - {p})
    case Free(i) => w.(inodes := w.inodes - {i})
    case LoseMemo(id, damaged) =>
      w.(memos := if damaged && id in w.memos then w.memos[id := Damaged] else w.memos - {id})
    case Begin(l, p) => w.(lookups := w.lookups[l := Started(p, w.now)])
    case WriteMemo(l) =>
      var u := w.lookups[l];
      w.(memos := w.memos[u.before := Whole(u.digest)], lookups := w.lookups[l := Done(Some(u.digest))])
    case _ => w.(lookups := w.lookups[step.lookup := Advance(w, step, h)])
  }

  // ---- what every interleaving keeps -----------------------------------------------

  /** `digest` is right for every file that has identity `id`, and no file can come to have it with other bytes. */
  ghost predicate Sealed(w: World, id: Identity, digest: Digest, h: string -> Digest) {
    && id.ctime <= w.now - WINDOW
    && (forall i :: i in w.inodes && IdOf(w, i) == id ==> h(w.inodes[i].content) == digest)
  }

  ghost predicate LookupOk(w: World, u: Lookup, h: string -> Digest) {
    match u
    case Started(_, started) => started <= w.now
    case Stated(_, started, _) => started <= w.now
    case Missed(_, started, _) => started <= w.now
    case Hashing(p, started, before, ino, disturbed) =>
      started <= w.now &&
      (Settled(before, started) && StatIdentity(w, p) == Some(before) ==> ino == before.ino && !disturbed)
    case Hashed(p, started, before, digest) =>
      started <= w.now &&
      (Settled(before, started) && StatIdentity(w, p) == Some(before) ==> digest == h(w.inodes[before.ino].content))
    case Approved(before, digest) => Sealed(w, before, digest, h)
    case Bare(_) => true
    case Done(_) => true
  }

  ghost predicate Inv(w: World, h: string -> Digest) {
    && w.lag < WINDOW
    && (forall id :: id in w.memos && w.memos[id].Whole? ==> Sealed(w, id, w.memos[id].digest, h))
    && (forall l :: l in w.lookups ==> LookupOk(w, w.lookups[l], h))
  }

  predicate Stamps(step: Step) { step.Rewrite? || step.Create? || step.Relink? }

  /** A stamp is newer than every settled identity, so nothing sealed or settled survives on that inode. */
  lemma StampedApart(w: World, step: Step, h: string -> Digest)
    requires Enabled(w, step) && Stamps(step) && w.lag < WINDOW
    ensures var w' := Next(w, step, h);
            && w'.lag == w.lag && w'.now == w.now && w'.memos == w.memos && w'.inodes.Keys == w.inodes.Keys + {step.ino}
            && IdOf(w', step.ino).ctime > w.now - WINDOW
            && forall i :: i in w.inodes && i != step.ino ==> w'.inodes[i] == w.inodes[i]
  {
  }

  lemma StampSealed(w: World, step: Step, h: string -> Digest, id: Identity, digest: Digest)
    requires w.lag < WINDOW && Enabled(w, step) && Stamps(step) && Sealed(w, id, digest, h)
    ensures Sealed(Next(w, step, h), id, digest, h)
  {
    StampedApart(w, step, h);
    var w' := Next(w, step, h);
    forall i | i in w'.inodes && IdOf(w', i) == id ensures h(w'.inodes[i].content) == digest {
      assert i != step.ino && IdOf(w, i) == id;
    }
  }

  lemma StampLookup(w: World, step: Step, h: string -> Digest, l: nat)
    requires w.lag < WINDOW && Enabled(w, step) && Stamps(step) && l in w.lookups && LookupOk(w, w.lookups[l], h)
    ensures LookupOk(Next(w, step, h), Next(w, step, h).lookups[l], h)
  {
    StampedApart(w, step, h);
    if w.lookups[l].Approved? {
      StampSealed(w, step, h, w.lookups[l].before, w.lookups[l].digest);
    }
  }

  lemma StampKeeps(w: World, step: Step, h: string -> Digest)
    requires Inv(w, h) && Enabled(w, step) && Stamps(step)
    ensures Inv(Next(w, step, h), h)
  {
    var w' := Next(w, step, h);
    forall id | id in w'.memos && w'.memos[id].Whole? ensures Sealed(w', id, w'.memos[id].digest, h) {
      StampedApart(w, step, h);
      StampSealed(w, step, h, id, w.memos[id].digest);
    }
    forall l | l in w'.lookups ensures LookupOk(w', w'.lookups[l], h) {
      StampLookup(w, step, h, l);
    }
  }

  lemma AdvanceKeeps(w: World, step: Step, h: string -> Digest)
    requires Inv(w, h) && Enabled(w, step)
    requires step.Stat? || step.ReadMemo? || step.OpenFile? || step.HashBare? || step.ReadFile? || step.Check?
    ensures Inv(Next(w, step, h), h)
  {
    assert LookupOk(w, w.lookups[step.lookup], h);
    assert LookupOk(w, Advance(w, step, h), h);
  }

  lemma StepKeeps(w: World, step: Step, h: string -> Digest)
    requires Inv(w, h) && Enabled(w, step)
    ensures Inv(Next(w, step, h), h)
  {
    if Stamps(step) {
      StampKeeps(w, step, h);
    } else if step.Stat? || step.ReadMemo? || step.OpenFile? || step.HashBare? || step.ReadFile? || step.Check? {
      AdvanceKeeps(w, step, h);
    }
  }

  ghost predicate IsRun(w: World, steps: seq<Step>, h: string -> Digest)
    decreases |steps|
  {
    steps == [] || (Enabled(w, steps[0]) && IsRun(Next(w, steps[0], h), steps[1..], h))
  }

  ghost function After(w: World, steps: seq<Step>, h: string -> Digest): World
    requires IsRun(w, steps, h)
    decreases |steps|
  {
    if steps == [] then w else After(Next(w, steps[0], h), steps[1..], h)
  }

  lemma {:induction false} RunKeeps(w: World, steps: seq<Step>, h: string -> Digest)
    requires Inv(w, h) && IsRun(w, steps, h)
    ensures Inv(After(w, steps, h), h)
    decreases |steps|
  {
    if steps != [] {
      StepKeeps(w, steps[0], h);
      RunKeeps(Next(w, steps[0], h), steps[1..], h);
    }
  }

  /**
   After some interleaving a memo's digest is the content digest of every file
   that has its identity, and it is that of every file that has it after some
   further interleaving.
   */
  ghost predicate Right(w: World, later: World, h: string -> Digest) {
    forall id, i :: id in w.memos && w.memos[id].Whole? ==>
      && (i in w.inodes && IdOf(w, i) == id ==> w.memos[id].digest == h(w.inodes[i].content))
      && (i in later.inodes && IdOf(later, i) == id ==> w.memos[id].digest == h(later.inodes[i].content))
  }

  ghost predicate AgreesAfter(w: World, steps: seq<Step>, later: seq<Step>, h: string -> Digest) {
    w.memos == map[] && w.lookups == map[] && IsRun(w, steps, h) && IsRun(After(w, steps, h), later, h) ==>
      Right(After(w, steps, h), After(After(w, steps, h), later, h), h)
  }

  /** With timestamps that lag by less than the window, the memo agrees with hashing in every interleaving. */
  lemma MemoAgreesWithHashing(w: World, steps: seq<Step>, later: seq<Step>, h: string -> Digest)
    requires w.lag < WINDOW
    ensures AgreesAfter(w, steps, later, h)
  {
    if w.memos == map[] && w.lookups == map[] && IsRun(w, steps, h) && IsRun(After(w, steps, h), later, h) {
      RunKeeps(w, steps, h);
      var w1 := After(w, steps, h);
      forall id | id in w1.memos && w1.memos[id].Whole?
        ensures Sealed(After(w1, later, h), id, w1.memos[id].digest, h)
      {
        SealLasts(w1, later, h, id, w1.memos[id].digest);
      }
    }
  }

  /** Once sealed, an identity keeps its digest whatever happens, even if its memo is lost or rewritten. */
  lemma {:induction false} SealLasts(w: World, steps: seq<Step>, h: string -> Digest, id: Identity, digest: Digest)
    requires w.lag < WINDOW && Sealed(w, id, digest, h) && IsRun(w, steps, h)
    ensures Sealed(After(w, steps, h), id, digest, h)
    decreases |steps|
  {
    if steps != [] {
      var w' := Next(w, steps[0], h);
      assert Sealed(w', id, digest, h) by {
        forall i | i in w'.inodes && IdOf(w', i) == id ensures h(w'.inodes[i].content) == digest {
          assert i in w.inodes && IdOf(w, i) == id;
        }
      }
      SealLasts(w', steps[1..], h, id, digest);
    }
  }

  // ---- a lookup that nobody disturbs -----------------------------------------------

  ghost predicate Leads(w: World, step: Step, h: string -> Digest, w': World) {
    Enabled(w, step) && Next(w, step, h) == w'
  }

  lemma Then(w: World, step: Step, h: string -> Digest, w': World, rest: seq<Step>)
    requires Leads(w, step, h, w') && IsRun(w', rest, h)
    ensures IsRun(w, [step] + rest, h) && After(w, [step] + rest, h) == After(w', rest, h)
  {
    assert ([step] + rest)[1..] == rest;
  }

  /** The world with one lookup that far. */
  function With(w: World, l: nat, u: Lookup): World { w.(lookups := w.lookups[l := u]) }

  lemma QuietStat(w: World, h: string -> Digest, l: nat, p: Path)
    requires l !in w.lookups && StatIdentity(w, p).Some?
    ensures Leads(w, Begin(l, p), h, With(w, l, Started(p, w.now)))
    ensures Leads(With(w, l, Started(p, w.now)), Stat(l), h, With(w, l, Stated(p, w.now, StatIdentity(w, p).value)))
  {
  }

  lemma QuietRead(w: World, h: string -> Digest, l: nat, p: Path, id: Identity)
    requires StatIdentity(w, p) == Some(id)
    ensures Leads(With(w, l, Missed(p, w.now, id)), OpenFile(l), h, With(w, l, Hashing(p, w.now, id, id.ino, false)))
    ensures Leads(With(w, l, Hashing(p, w.now, id, id.ino, false)), ReadFile(l, ""), h,
                  With(w, l, Hashed(p, w.now, id, h(w.inodes[id.ino].content))))
  {
  }

  lemma QuietCheck(w: World, h: string -> Digest, l: nat, p: Path, id: Identity, digest: Digest)
    requires StatIdentity(w, p) == Some(id)
    ensures Leads(With(w, l, Hashed(p, w.now, id, digest)), Check(l), h,
                  With(w, l, if Settled(id, w.now) then Approved(id, digest) else Done(Some(digest))))
    ensures Leads(With(w, l, Approved(id, digest)), WriteMemo(l), h,
                  With(w.(memos := w.memos[id := Whole(digest)]), l, Done(Some(digest))))
  {
  }

  function StoreSteps(l: nat, settled: bool): seq<Step> {
    [OpenFile(l)] + ([ReadFile(l, "")] + ([Check(l)] + (if settled then [WriteMemo(l)] + [] else [])))
  }

  /** A lookup that the memo does not answer reads the file, and stores its digest if it is settled. */
  lemma QuietStore(w: World, h: string -> Digest, l: nat, p: Path, id: Identity)
    requires StatIdentity(w, p) == Some(id)
    ensures var digest, settled := h(w.inodes[id.ino].content), Settled(id, w.now);
            var w' := if settled then w.(memos := w.memos[id := Whole(digest)]) else w;
            && IsRun(With(w, l, Missed(p, w.now, id)), StoreSteps(l, settled), h)
            && After(With(w, l, Missed(p, w.now, id)), StoreSteps(l, settled), h) == With(w', l, Done(Some(digest)))
  {
    var digest, settled := h(w.inodes[id.ino].content), Settled(id, w.now);
    QuietRead(w, h, l, p, id);
    QuietCheck(w, h, l, p, id, digest);
    var last := if settled then [WriteMemo(l)] + [] else [];
    var checked := With(w, l, if settled then Approved(id, digest) else Done(Some(digest)));
    if settled {
      Then(checked, WriteMemo(l), h, With(w.(memos := w.memos[id := Whole(digest)]), l, Done(Some(digest))), []);
    }
    Then(With(w, l, Hashed(p, w.now, id, digest)), Check(l), h, checked, last);
    Then(With(w, l, Hashing(p, w.now, id, id.ino, false)), ReadFile(l, ""), h,
         With(w, l, Hashed(p, w.now, id, digest)), [Check(l)] + last);
    Then(With(w, l, Missed(p, w.now, id)), OpenFile(l), h,
         With(w, l, Hashing(p, w.now, id, id.ino, false)), [ReadFile(l, "")] + ([Check(l)] + last));
  }

  predicate InMemo(w: World, id: Identity) { id in w.memos && w.memos[id].Whole? }

  lemma MemoRead(w: World, h: string -> Digest, l: nat, p: Path, id: Identity)
    requires StatIdentity(w, p) == Some(id) && (InMemo(w, id) ==> Sealed(w, id, w.memos[id].digest, h))
    ensures Leads(With(w, l, Stated(p, w.now, id)), ReadMemo(l), h,
                  With(w, l, if InMemo(w, id) then Done(Some(w.memos[id].digest)) else Missed(p, w.now, id)))
    ensures InMemo(w, id) ==> w.memos[id].digest == h(w.inodes[id.ino].content)
  {
    assert IdOf(w, id.ino) == id;
  }

  /** Nothing has touched the file for the whole window. */
  predicate Still(id: Identity, now: int) { id.mtime + WINDOW <= now && id.ctime + WINDOW <= now }

  function LookupSteps(l: nat, p: Path, hit: bool, settled: bool): seq<Step> {
    [Begin(l, p)] + ([Stat(l)] + ([ReadMemo(l)] + (if hit then [] else StoreSteps(l, settled))))
  }

  /**
   A lookup that nobody disturbs answers the file's digest. It does not open a file that is
   memoised; it memoises any other if and only if the file has been still for the window.
   */
  lemma QuietLookup(w: World, h: string -> Digest, l: nat, p: Path, id: Identity)
    requires l !in w.lookups && StatIdentity(w, p) == Some(id)
    requires InMemo(w, id) ==> Sealed(w, id, w.memos[id].digest, h)
    ensures var steps := LookupSteps(l, p, InMemo(w, id), Still(id, w.now));
            var digest := h(w.inodes[id.ino].content);
            var w' := if !InMemo(w, id) && Still(id, w.now) then w.(memos := w.memos[id := Whole(digest)]) else w;
            IsRun(w, steps, h) && After(w, steps, h) == With(w', l, Done(Some(digest)))
  {
    var w0, w1 := With(w, l, Started(p, w.now)), With(w, l, Stated(p, w.now, id));
    var rest := if InMemo(w, id) then [] else StoreSteps(l, Settled(id, w.now));
    var w2 := With(w, l, if InMemo(w, id) then Done(Some(w.memos[id].digest)) else Missed(p, w.now, id));
    QuietStat(w, h, l, p);
    MemoRead(w, h, l, p, id);
    if !InMemo(w, id) {
      QuietStore(w, h, l, p, id);
    }
    Then(w1, ReadMemo(l), h, w2, rest);
    Then(w0, Stat(l), h, w1, [ReadMemo(l)] + rest);
    Then(w, Begin(l, p), h, w0, [Stat(l)] + ([ReadMemo(l)] + rest));
  }

  // ---- the window is exact ---------------------------------------------------------

  const OLD_ID := Identity(0, 1, 0, 0)

  /** A file that has not changed for the whole window, and a lookup of it. */
  function Fresh(lag: nat, lookups: map<nat, Lookup>): World {
    World(lag, WINDOW, map["f" := 0], map[0 := Inode(0, 0, "a")], map[], lookups)
  }

  function Memoised(lag: nat, h: string -> Digest, content: string): World {
    World(lag, WINDOW, map["f" := 0], map[0 := Inode(0, 0, content)], map[OLD_ID := Whole(h("a"))],
          map[0 := Done(Some(h("a")))])
  }

  /** A lookup of a settled file memoises its digest. */
  lemma LookupMemoises(lag: nat, h: string -> Digest) returns (steps: seq<Step>)
    ensures IsRun(Fresh(lag, map[]), steps, h) && After(Fresh(lag, map[]), steps, h) == Memoised(lag, h, "a")
  {
    var w := Fresh(lag, map[]);
    steps := LookupSteps(0, "f", false, true);
    QuietLookup(w, h, 0, "f", OLD_ID);
    assert w.memos[OLD_ID := Whole(h("a"))] == map[OLD_ID := Whole(h("a"))];
    assert w.lookups[0 := Done(Some(h("a")))] == map[0 := Done(Some(h("a")))];
  }

  /** A timestamp that lags by the whole window lets a rewrite keep a memoised identity with other bytes. */
  lemma WholeWindowLagBreaksMemo(lag: nat, h: string -> Digest) returns (steps: seq<Step>, later: seq<Step>)
    requires lag >= WINDOW && h("a") != h("b")
    ensures !AgreesAfter(Fresh(lag, map[]), steps, later, h)
  {
    steps := LookupMemoises(lag, h);
    var w1, w2 := Memoised(lag, h, "a"), Memoised(lag, h, "b");
    later := [Rewrite(0, Inode(0, 0, "b"))] + [];
    assert Disturb(w1.lookups, 0) == w1.lookups;
    Then(w1, Rewrite(0, Inode(0, 0, "b")), h, w2, []);
    assert 0 in w2.inodes && IdOf(w2, 0) == OLD_ID && OLD_ID in w1.memos;
  }

  /** So the memo agrees with hashing in every interleaving if and only if timestamps lag by less than the window. */
  lemma WindowIsExact(lag: nat, h: string -> Digest)
    requires h("a") != h("b")
    ensures (forall w: World, steps, later :: w.lag == lag ==> AgreesAfter(w, steps, later, h)) <==> lag < WINDOW
  {
    if lag < WINDOW {
      forall w: World, steps, later | w.lag == lag ensures AgreesAfter(w, steps, later, h) {
        MemoAgreesWithHashing(w, steps, later, h);
      }
    } else {
      var steps, later := WholeWindowLagBreaksMemo(lag, h);
      assert Fresh(lag, map[]).lag == lag;
    }
  }
}

/** The lookup as one procedure, with the rest of the machine acting between its system calls. */
module FileMemoClass {
  import opened Common
  import opened FileMemo

  /** A lookup that has looked at its file has the file's identity. */
  predicate Shows(w: World, self: nat) {
    self in w.lookups &&
    (w.lookups[self].Stated? ==> StatIdentity(w, w.lookups[self].path) == Some(w.lookups[self].before))
  }

  class Host {
    var world: World

    constructor (world: World)
      ensures this.world == world
    {
      this.world := world;
    }

    method Do(step: Step, h: string -> Digest)
      requires Inv(world, h) && Enabled(world, step)
      modifies this
      ensures world == Next(old(world), step, h) && Inv(world, h)
    {
      StepKeeps(world, step, h);
      world := Next(world, step, h);
    }

    /** Other processes act. A step that is not possible at its moment does not happen. */
    method Interfere(steps: seq<Step>, self: nat, h: string -> Digest)
      requires Inv(world, h) && self in world.lookups && LeavesAlone(steps, self)
      modifies this
      ensures Inv(world, h) && self in world.lookups && Resumes(old(world.lookups)[self], world.lookups[self])
      ensures steps == [] ==> world == old(world)
    {
      for i := 0 to |steps|
        invariant Inv(world, h) && self in world.lookups && Resumes(old(world.lookups)[self], world.lookups[self])
        invariant i == 0 ==> world == old(world)
      {
        if Enabled(world, steps[i]) {
          Do(steps[i], h);
        }
      }
    }

    /**
     Whatever happens between its system calls, a lookup stores nothing wrong;
     with nothing happening it answers what hashing the file answers.
     */
    method HashFileMemoizedAt(path: Path, self: nat, gaps: seq<seq<Step>>, garbled: Digest, h: string -> Digest)
      returns (result: Option<Digest>)
      requires Inv(world, h) && self !in world.lookups
      requires |gaps| == 6 && forall g :: 0 <= g < 6 ==> LeavesAlone(gaps[g], self)
      modifies this
      ensures Inv(world, h) && self in world.lookups && world.lookups[self] == Done(result)
      ensures (forall g :: 0 <= g < 6 ==> gaps[g] == []) ==> result == HashFile(old(world), path, h)
    {
      StatFirst(path, self, gaps[0], h);
      result := Answer(self, gaps, garbled, h);
    }

    /** The lookup starts and looks at the file. */
    method StatFirst(path: Path, self: nat, gap: seq<Step>, h: string -> Digest)
      requires Inv(world, h) && self !in world.lookups && LeavesAlone(gap, self)
      modifies this
      ensures Inv(world, h) && self in world.lookups
      ensures world.lookups[self] == Bare(path) || (world.lookups[self].Stated? && world.lookups[self].path == path)
      ensures gap == [] ==> world == old(world).(lookups := world.lookups) && Shows(world, self)
    {
      Do(Begin(self, path), h);
      Interfere(gap, self, h);
      Do(Stat(self), h);
    }

    /** From the memo if it has the file, and otherwise by hashing. */
    method Answer(self: nat, gaps: seq<seq<Step>>, garbled: Digest, h: string -> Digest)
      returns (result: Option<Digest>)
      requires Inv(world, h) && self in world.lookups && (world.lookups[self].Bare? || world.lookups[self].Stated?)
      requires |gaps| == 6 && forall g :: 0 <= g < 6 ==> LeavesAlone(gaps[g], self)
      modifies this
      ensures Inv(world, h) && self in world.lookups && world.lookups[self] == Done(result)
      ensures Shows(old(world), self) && (forall g :: 0 <= g < 6 ==> gaps[g] == []) ==>
                result == HashFile(old(world), old(world.lookups)[self].path, h)
    {
      Interfere(gaps[1], self, h);
      if world.lookups[self].Bare? {
        Do(HashBare(self), h);
        return world.lookups[self].result;
      }
      Do(ReadMemo(self), h);
      if world.lookups[self].Done? {
        return world.lookups[self].result;
      }
      result := HashAndStore(self, gaps, garbled, h);
    }

    /** The memo had nothing: hash, and store the digest if the file has settled and was left alone. */
    method HashAndStore(self: nat, gaps: seq<seq<Step>>, garbled: Digest, h: string -> Digest)
      returns (result: Option<Digest>)
      requires Inv(world, h) && self in world.lookups && world.lookups[self].Missed?
      requires |gaps| == 6 && forall g :: 0 <= g < 6 ==> LeavesAlone(gaps[g], self)
      modifies this
      ensures Inv(world, h) && self in world.lookups && world.lookups[self] == Done(result)
      ensures (forall g :: 0 <= g < 6 ==> gaps[g] == []) ==>
                result == HashFile(old(world), old(world.lookups)[self].path, h)
    {
      Interfere(gaps[2], self, h);
      Do(OpenFile(self), h);
      if world.lookups[self].Done? {
        return world.lookups[self].result;
      }
      Interfere(gaps[3], self, h);
      Do(ReadFile(self, garbled), h);
      result := CheckAndStore(self, gaps[4], gaps[5], h);
    }

    /** Stores the digest if the file is still what it was; answers it either way. */
    method CheckAndStore(self: nat, before: seq<Step>, between: seq<Step>, h: string -> Digest)
      returns (result: Option<Digest>)
      requires Inv(world, h) && self in world.lookups && world.lookups[self].Hashed?
      requires LeavesAlone(before, self) && LeavesAlone(between, self)
      modifies this
      ensures Inv(world, h) && self in world.lookups && world.lookups[self] == Done(result)
      ensures result == Some(old(world.lookups)[self].digest)
    {
      Interfere(before, self, h);
      Do(Check(self), h);
      if world.lookups[self].Done? {
        return world.lookups[self].result;
      }
      Interfere(between, self, h);
      Do(WriteMemo(self), h);
      return world.lookups[self].result;
    }
  }

  predicate LeavesAlone(steps: seq<Step>, self: nat) {
    forall i :: 0 <= i < |steps| ==> !Owns(steps[i], self)
  }

  predicate Owns(step: Step, self: nat) {
    match step
    case Begin(l, _) => l == self
    case Stat(l) => l == self
    case ReadMemo(l) => l == self
    case OpenFile(l) => l == self
    case HashBare(l) => l == self
    case ReadFile(l, _) => l == self
    case Check(l) => l == self
    case WriteMemo(l) => l == self
    case _ => false
  }

  /** Others can only spoil a read in progress. */
  predicate Resumes(u: Lookup, v: Lookup) {
    v == u || (u.Hashing? && v == u.(disturbed := true))
  }
}
