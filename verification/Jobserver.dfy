/**
 The jobserver pool: a fifo of job tokens the daemon shares with make clients and
 shrinks while compiles queue for memory. Following section 13.1.1 of the GNU make
 manual, a pool of `total` slots puts total - 1 tokens in the fifo.
 */
module JobserverModel {

  const READ_CHUNK := 256

  function Min(a: int, b: int): int { if a < b then a else b }

  function Max(a: int, b: int): int { if a < b then b else a }

  function Clamp(x: int, lo: int, hi: int): int { Min(Max(x, lo), hi) }

  function Floor(total: int, minJobs: int): int { Clamp(minJobs, 1, Max(1, total)) }

  /** Negative values withdraw tokens; positive values restore them. */
  function SignedTokenChange(total: int, fifoBytes: int, withdrawn: int, waiting: nat, availableKb: nat, minJobs: int,
                             estimateKb: nat): (r: int)
    ensures r < 0 <==> waiting > 0 && fifoBytes > 0 && total - withdrawn > Floor(total, minJobs)
    ensures r < 0 ==> -r <= waiting && -r <= fifoBytes && total - (withdrawn - r) >= Floor(total, minJobs)
    ensures r < 0 ==> -r == waiting || -r == fifoBytes || total - (withdrawn - r) == Floor(total, minJobs)
    ensures r > 0 <==> waiting == 0 && withdrawn > 0 && availableKb > estimateKb
    ensures r <= 1
  {
    var floor := Floor(total, minJobs);
    if waiting > 0 && fifoBytes > 0 then -Min(waiting, Max(0, Min(fifoBytes, total - withdrawn - floor)))
    else if waiting == 0 && withdrawn > 0 && availableKb > estimateKb then 1
    else 0
  }

  /** Tokens in the fifo, withdrawn by the daemon and held by clients, and the running count of restored ones. */
  datatype Pool = Pool(total: int, fifo: nat, withdrawn: nat, held: nat, restored: nat)

  function Open(slots: int): Pool
    requires slots > 0
  {
    Pool(slots, slots - 1, 0, 0, 0)
  }

  /** One system call of the daemon: what clients did just before it, and how it went. */
  datatype Beat = Beat(clients: int, interrupted: bool, failed: bool, size: int)

  /** Clients take tokens out of the fifo, or put back tokens they hold. */
  function ClientMove(p: Pool, n: int): Pool {
    var t := if n >= 0 then Min(n, p.fifo) else -Min(-n, p.held);
    p.(fifo := p.fifo - t, held := p.held + t)
  }

  function WithdrawLoop(p: Pool, want: nat, script: seq<Beat>): (Pool, nat)
    decreases |script|
  {
    if want == 0 || script == [] then (p, 0)
    else
      var p1 := ClientMove(p, script[0].clients);
      if script[0].interrupted then WithdrawLoop(p1, want, script[1..])
      else if script[0].failed || p1.fifo == 0 then (p1, 0)
      else
        var n := Clamp(script[0].size, 1, Min(READ_CHUNK, Min(want, p1.fifo)));
        var (p2, rest) := WithdrawLoop(p1.(fifo := p1.fifo - n, withdrawn := p1.withdrawn + n), want - n, script[1..]);
        (p2, n + rest)
  }

  /** One read: some tokens, none because it was interrupted, or the end because it failed or would block. */
  predicate OneRead(p: Pool, want: nat, beat: Beat, size: nat, ends: bool, p': Pool) {
    var p1 := ClientMove(p, beat.clients);
    && ends == (!beat.interrupted && (beat.failed || p1.fifo == 0))
    && size == (if beat.interrupted || ends then 0 else Clamp(beat.size, 1, Min(READ_CHUNK, Min(want, p1.fifo))))
    && size <= want && size <= p1.fifo && p' == p1.(fifo := p1.fifo - size, withdrawn := p1.withdrawn + size)
  }

  lemma WithdrawStep(p: Pool, want: nat, script: seq<Beat>, i: nat, size: nat, ends: bool, p': Pool)
    requires i < |script| && want > 0 && OneRead(p, want, script[i], size, ends, p')
    ensures ends ==> WithdrawLoop(p, want, script[i..]) == (p', 0)
    ensures !ends ==> var (r, rest) := WithdrawLoop(p', want - size, script[i + 1..]);
                      WithdrawLoop(p, want, script[i..]) == (r, size + rest)
  {
    assert script[i..][0] == script[i] && script[i..][1..] == script[i + 1..];
    assert size == 0 ==> p' == ClientMove(p, script[i].clients);
  }

  function Withdraw(p: Pool, count: int, script: seq<Beat>): (Pool, nat) {
    WithdrawLoop(p, Clamp(count, 0, Max(0, p.total - 1 - p.withdrawn)), script)
  }

  function RestoreLoop(p: Pool, want: nat, script: seq<Beat>): (Pool, nat)
    requires want <= p.withdrawn
    decreases |script|
  {
    if want == 0 || script == [] then (p, 0)
    else
      var p1 := ClientMove(p, script[0].clients);
      if script[0].interrupted then RestoreLoop(p1, want, script[1..])
      else if script[0].failed then (p1, 0)
      else
        var n := Clamp(script[0].size, 1, want);
        var p2 := p1.(fifo := p1.fifo + n, withdrawn := p1.withdrawn - n, restored := p1.restored + n);
        var (p3, rest) := RestoreLoop(p2, want - n, script[1..]);
        (p3, n + rest)
  }

  function Restore(p: Pool, count: int, script: seq<Beat>): (Pool, nat) {
    RestoreLoop(p, Clamp(count, 0, p.withdrawn), script)
  }

  /** One tick of the admission worker. The fifo count may be unreadable. */
  datatype Tick = Tick(fifoReadable: bool, waiting: nat, availableKb: nat, script: seq<Beat>)

  function Change(p: Pool, t: Tick, minJobs: int, estimateKb: nat): int {
    SignedTokenChange(p.total, if t.fifoReadable then p.fifo else -1, p.withdrawn, t.waiting, t.availableKb, minJobs,
                      estimateKb)
  }

  function ApplyTick(p: Pool, t: Tick, minJobs: int, estimateKb: nat): Pool {
    var change := Change(p, t, minJobs, estimateKb);
    if change < 0 then Withdraw(p, -change, t.script).0
    else if change > 0 then Restore(p, change, t.script).0
    else p
  }

  // ---- conservation ----------------------------------------------------------------

  /** Every token is in the fifo, withdrawn or with a client, and the floor of usable slots is kept. */
  predicate PoolOk(p: Pool, minJobs: int) {
    && p.total >= 1
    && p.fifo + p.withdrawn + p.held == p.total - 1
    && p.total - p.withdrawn >= Floor(p.total, minJobs)
  }

  lemma {:induction false} WithdrawConserves(p: Pool, want: nat, script: seq<Beat>)
    ensures var (r, taken) := WithdrawLoop(p, want, script);
            && taken <= want && r.withdrawn == p.withdrawn + taken
            && r.total == p.total && r.restored == p.restored
            && r.fifo + r.withdrawn + r.held == p.fifo + p.withdrawn + p.held
    decreases |script|
  {
    if want != 0 && script != [] {
      var p1 := ClientMove(p, script[0].clients);
      if script[0].interrupted {
        WithdrawConserves(p1, want, script[1..]);
      } else if !script[0].failed && p1.fifo != 0 {
        var n := Clamp(script[0].size, 1, Min(READ_CHUNK, Min(want, p1.fifo)));
        WithdrawConserves(p1.(fifo := p1.fifo - n, withdrawn := p1.withdrawn + n), want - n, script[1..]);
      }
    }
  }

  lemma {:induction false} RestoreConserves(p: Pool, want: nat, script: seq<Beat>)
    requires want <= p.withdrawn
    ensures var (r, returned) := RestoreLoop(p, want, script);
            && returned <= want && r.withdrawn == p.withdrawn - returned
            && r.total == p.total && r.restored == p.restored + returned
            && r.fifo + r.withdrawn + r.held == p.fifo + p.withdrawn + p.held
    decreases |script|
  {
    if want != 0 && script != [] {
      var p1 := ClientMove(p, script[0].clients);
      if script[0].interrupted {
        RestoreConserves(p1, want, script[1..]);
      } else if !script[0].failed {
        var n := Clamp(script[0].size, 1, want);
        RestoreConserves(p1.(fifo := p1.fifo + n, withdrawn := p1.withdrawn - n, restored := p1.restored + n),
                         want - n, script[1..]);
      }
    }
  }

  lemma TickConserves(p: Pool, t: Tick, minJobs: int, estimateKb: nat)
    requires PoolOk(p, minJobs)
    ensures PoolOk(ApplyTick(p, t, minJobs, estimateKb), minJobs)
    ensures ApplyTick(p, t, minJobs, estimateKb).total == p.total
  {
    var change := Change(p, t, minJobs, estimateKb);
    if change < 0 {
      WithdrawConserves(p, Clamp(-change, 0, Max(0, p.total - 1 - p.withdrawn)), t.script);
    } else if change > 0 {
      RestoreConserves(p, Clamp(change, 0, p.withdrawn), t.script);
    }
  }

  datatype Step = Clients(n: int) | Ticks(tick: Tick)

  function Run(p: Pool, steps: seq<Step>, minJobs: int, estimateKb: nat): Pool
    decreases |steps|
  {
    if steps == [] then p
    else
      var p1 := match steps[0]
                case Clients(n) => ClientMove(p, n)
                case Ticks(t) => ApplyTick(p, t, minJobs, estimateKb);
      Run(p1, steps[1..], minJobs, estimateKb)
  }

  /**
   Token conservation over every run: whatever clients take and return, and
   however the daemon's reads and writes are cut short or interleaved with
   them, no token is lost or made, and enough slots stay usable.
   */
  lemma {:induction false} TokensConserved(slots: int, p: Pool, steps: seq<Step>, minJobs: int, estimateKb: nat)
    requires PoolOk(p, minJobs) && p.total == slots
    ensures var r := Run(p, steps, minJobs, estimateKb);
            && r.fifo + r.withdrawn + r.held == slots - 1
            && slots - r.withdrawn >= Floor(slots, minJobs)
    decreases |steps|
  {
    if steps != [] {
      match steps[0]
      case Clients(n) => TokensConserved(slots, ClientMove(p, n), steps[1..], minJobs, estimateKb);
      case Ticks(t) =>
        TickConserves(p, t, minJobs, estimateKb);
        TokensConserved(slots, ApplyTick(p, t, minJobs, estimateKb), steps[1..], minJobs, estimateKb);
    }
  }

  lemma OpenOk(slots: int, minJobs: int)
    requires slots > 0
    ensures PoolOk(Open(slots), minJobs)
  {
  }

  /** Reads that nothing disturbs: clients keep still and no read fails, though some are interrupted. */
  predicate Undisturbed(script: seq<Beat>) {
    forall i :: 0 <= i < |script| ==> script[i].clients == 0 && !script[i].failed
  }

  function Completed(script: seq<Beat>): nat {
    if script == [] then 0 else (if script[0].interrupted then 0 else 1) + Completed(script[1..])
  }

  /** However short the reads are, enough of them withdraw all that is wanted, or all there is. */
  lemma {:induction false} WithdrawsAll(p: Pool, want: nat, script: seq<Beat>)
    requires Undisturbed(script) && Completed(script) >= Min(want, p.fifo)
    ensures WithdrawLoop(p, want, script).1 == Min(want, p.fifo)
    decreases |script|
  {
    if want != 0 && script != [] {
      assert ClientMove(p, 0) == p;
      if script[0].interrupted {
        WithdrawsAll(p, want, script[1..]);
      } else if p.fifo != 0 {
        var n := Clamp(script[0].size, 1, Min(READ_CHUNK, Min(want, p.fifo)));
        WithdrawsAll(p.(fifo := p.fifo - n, withdrawn := p.withdrawn + n), want - n, script[1..]);
      }
    }
  }

  /** A tick while compiles queue for memory: as many tokens go as wait, are there, and the floor lets go. */
  lemma TickWithdraws(p: Pool, t: Tick, minJobs: int, estimateKb: nat)
    requires PoolOk(p, minJobs) && t.fifoReadable && t.waiting > 0
    requires Undisturbed(t.script) && Completed(t.script) >= p.fifo
    ensures ApplyTick(p, t, minJobs, estimateKb).withdrawn
            == p.withdrawn + Min(t.waiting, Min(p.fifo, p.total - p.withdrawn - Floor(p.total, minJobs)))
  {
    var change := Change(p, t, minJobs, estimateKb);
    if change < 0 {
      var want := Clamp(-change, 0, Max(0, p.total - 1 - p.withdrawn));
      WithdrawsAll(p, want, t.script);
      WithdrawConserves(p, want, t.script);
    }
  }

  /** A write that is retried until it goes through. */
  predicate Writes(script: seq<Beat>) {
    script != [] && (if script[0].interrupted then Writes(script[1..]) else !script[0].failed)
  }

  lemma {:induction false} RestoreOne(p: Pool, script: seq<Beat>)
    requires p.withdrawn > 0 && Writes(script)
    ensures RestoreLoop(p, 1, script).0.withdrawn == p.withdrawn - 1
    decreases |script|
  {
    if script[0].interrupted {
      RestoreOne(ClientMove(p, script[0].clients), script[1..]);
    }
  }

  /** A tick with nobody waiting and memory to spare. */
  predicate Restoring(step: Step, estimateKb: nat) {
    step.Ticks? ==> step.tick.waiting == 0 && step.tick.availableKb > estimateKb && Writes(step.tick.script)
  }

  function TickCount(steps: seq<Step>): nat {
    if steps == [] then 0 else (if steps[0].Ticks? then 1 else 0) + TickCount(steps[1..])
  }

  /** Each such tick gives one token back, so as many ticks as tokens restore them all. */
  lemma {:induction false} TicksRestoreAll(p: Pool, steps: seq<Step>, minJobs: int, estimateKb: nat)
    requires forall i :: 0 <= i < |steps| ==> Restoring(steps[i], estimateKb)
    ensures Run(p, steps, minJobs, estimateKb).withdrawn == Max(0, p.withdrawn - TickCount(steps))
    decreases |steps|
  {
    if steps != [] {
      match steps[0]
      case Clients(n) => TicksRestoreAll(ClientMove(p, n), steps[1..], minJobs, estimateKb);
      case Ticks(t) =>
        if p.withdrawn > 0 {
          assert Restoring(steps[0], estimateKb);
          RestoreOne(p, t.script);
        }
        TicksRestoreAll(ApplyTick(p, t, minJobs, estimateKb), steps[1..], minJobs, estimateKb);
    }
  }
}

/** The pool object: Withdraw and Restore loop over short reads and writes. */
module JobserverClass {
  import opened JobserverModel

  class JobserverPool {
    const total: int
    var fifo: nat  // bytes in the fifo
    var held: nat  // tokens clients have taken and not returned
    var withdrawn: nat
    var restored: nat

    ghost function View(): Pool
      reads this
    {
      Pool(total, fifo, withdrawn, held, restored)
    }

    constructor (slots: int)
      requires slots > 0
      ensures View() == Open(slots)
    {
      total, fifo, held, withdrawn, restored := slots, slots - 1, 0, 0, 0;
    }

    /** What clients do between two system calls of the daemon. */
    method Clients(n: int)
      modifies this`fifo, this`held
      ensures View() == ClientMove(old(View()), n)
    {
      var t := if n >= 0 then Min(n, fifo) else -Min(-n, held);
      fifo, held := fifo - t, held + t;
    }

    method Withdraw(count: int, script: seq<Beat>) returns (taken: nat)
      modifies this`fifo, this`held, this`withdrawn
      ensures (View(), taken) == JobserverModel.Withdraw(old(View()), count, script)
    {
      taken := 0;
      var want := Clamp(count, 0, Max(0, total - 1 - withdrawn));
      ghost var goal := WithdrawLoop(View(), want, script);
      var i := 0;
      while taken < want && i < |script|
        invariant 0 <= i <= |script| && taken <= want
        invariant var (r, rest) := WithdrawLoop(View(), want - taken, script[i..]); goal == (r, taken + rest)
        decreases |script| - i
      {
        ghost var before := View();
        var size, ends := ReadTokens(script[i], want - taken);
        WithdrawStep(before, want - taken, script, i, size, ends, View());
        i, taken := i + 1, taken + size;
        if ends {
          break;
        }
      }
    }

    method ReadTokens(beat: Beat, want: nat) returns (size: nat, ends: bool)
      requires want > 0
      modifies this`fifo, this`held, this`withdrawn
      ensures OneRead(old(View()), want, beat, size, ends, View())
    {
      Clients(beat.clients);
      size, ends := 0, false;
      if beat.interrupted {
        return;
      }
      if beat.failed || fifo == 0 {
        ends := true;
        return;
      }
      size := Clamp(beat.size, 1, Min(READ_CHUNK, Min(want, fifo)));
      fifo, withdrawn := fifo - size, withdrawn + size;
    }

    method Restore(count: int, script: seq<Beat>) returns (returned: nat)
      modifies this`fifo, this`held, this`withdrawn, this`restored
      ensures (View(), returned) == JobserverModel.Restore(old(View()), count, script)
    {
      returned := 0;
      var want := Clamp(count, 0, withdrawn);
      ghost var goal := RestoreLoop(View(), want, script);
      var i := 0;
      while returned < want && i < |script|
        invariant 0 <= i <= |script| && returned <= want && want - returned <= withdrawn
        invariant var (r, rest) := RestoreLoop(View(), want - returned, script[i..]); goal == (r, returned + rest)
        decreases |script| - i
      {
        var beat := script[i];
        assert script[i..][0] == beat && script[i..][1..] == script[i + 1..];
        Clients(beat.clients);
        i := i + 1;
        if beat.interrupted {
          continue;
        }
        if beat.failed {
          break;
        }
        var size := Clamp(beat.size, 1, want - returned);
        fifo, returned, withdrawn, restored := fifo + size, returned + size, withdrawn - size, restored + size;
      }
    }

    method TickJobserver(t: Tick, minJobs: int, estimateKb: nat)
      modifies this`fifo, this`held, this`withdrawn, this`restored
      ensures View() == ApplyTick(old(View()), t, minJobs, estimateKb)
    {
      var change := SignedTokenChange(total, if t.fifoReadable then fifo else -1, withdrawn, t.waiting, t.availableKb,
                                      minJobs, estimateKb);
      if change < 0 {
        var _ := Withdraw(-change, t.script);
      } else if change > 0 {
        var _ := Restore(change, t.script);
      }
    }
  }
}
