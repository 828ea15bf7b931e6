/** Hashing whole blocks with any compression function. */
module Blocks {

  const BLOCK := 64

  /** The state after whole blocks of data, oldest block first. */
  ghost function Fold<S, B>(step: (S, seq<B>) -> S, start: S, data: seq<B>): S {
    if |data| < BLOCK then start
    else step(Fold(step, start, data[..|data| - BLOCK]), data[|data| - BLOCK..])
  }

  lemma FoldAppend<S, B>(step: (S, seq<B>) -> S, start: S, data: seq<B>, block: seq<B>)
    requires |block| == BLOCK
    ensures Fold(step, start, data + block) == step(Fold(step, start, data), block)
  {
    assert (data + block)[..|data + block| - BLOCK] == data;
    assert (data + block)[|data + block| - BLOCK..] == block;
  }

  /** Whole blocks of data are folded into a state, all but a tail. */
  ghost predicate Folded<S, B(!new)>(step: (S, seq<B>) -> S, start: S, state: S, tail: seq<B>, data: seq<B>) {
    exists head: seq<B> {:trigger head + tail} ::
      |head| % BLOCK == 0 && data == head + tail && state == Fold(step, start, head)
  }

  lemma FoldedMore<S, B(!new)>(step: (S, seq<B>) -> S, start: S, state: S, tail: seq<B>, data: seq<B>, more: seq<B>)
    requires Folded(step, start, state, tail, data)
    ensures Folded(step, start, state, tail + more, data + more)
  {
    ghost var head :| |head| % BLOCK == 0 && data == head + tail && state == Fold(step, start, head);
    assert data + more == head + (tail + more);
  }

  lemma FoldedBlock<S, B(!new)>(step: (S, seq<B>) -> S, start: S, state: S, block: seq<B>, data: seq<B>)
    requires |block| == BLOCK && Folded(step, start, state, block, data)
    ensures Folded(step, start, step(state, block), [], data)
  {
    ghost var head :| |head| % BLOCK == 0 && data == head + block && state == Fold(step, start, head);
    FoldAppend(step, start, head, block);
    assert |data| % BLOCK == 0;
    assert data == data + [];
  }

  lemma FoldedWhole<S, B(!new)>(step: (S, seq<B>) -> S, start: S, state: S, data: seq<B>)
    requires Folded(step, start, state, [], data)
    ensures state == Fold(step, start, data)
  {
    ghost var head :| |head| % BLOCK == 0 && data == head + [] && state == Fold(step, start, head);
    assert head + [] == head;
  }
}

/**
 SHA-256 as FIPS 180-4 defines it, and the streaming object that computes it.
 The object may be fed in any pieces; its digest depends only on their concatenation.
 */
module Sha256Spec {
  import opened Blocks

  type Byte = bv8
  type Word = bv32

  const TWO_64 := 0x1_0000_0000_0000_0000

  // Section 4.2.2, in rows of eight.

  const K0: seq<Word> := [
    0x428a2f98, 0x71374491, 0xb5c0fbcf, 0xe9b5dba5, 0x3956c25b, 0x59f111f1, 0x923f82a4, 0xab1c5ed5]

  const K1: seq<Word> := [
    0xd807aa98, 0x12835b01, 0x243185be, 0x550c7dc3, 0x72be5d74, 0x80deb1fe, 0x9bdc06a7, 0xc19bf174]

  const K2: seq<Word> := [
    0xe49b69c1, 0xefbe4786, 0x0fc19dc6, 0x240ca1cc, 0x2de92c6f, 0x4a7484aa, 0x5cb0a9dc, 0x76f988da]

  const K3: seq<Word> := [
    0x983e5152, 0xa831c66d, 0xb00327c8, 0xbf597fc7, 0xc6e00bf3, 0xd5a79147, 0x06ca6351, 0x14292967]

  const K4: seq<Word> := [
    0x27b70a85, 0x2e1b2138, 0x4d2c6dfc, 0x53380d13, 0x650a7354, 0x766a0abb, 0x81c2c92e, 0x92722c85]

  const K5: seq<Word> := [
    0xa2bfe8a1, 0xa81a664b, 0xc24b8b70, 0xc76c51a3, 0xd192e819, 0xd6990624, 0xf40e3585, 0x106aa070]

  const K6: seq<Word> := [
    0x19a4c116, 0x1e376c08, 0x2748774c, 0x34b0bcb5, 0x391c0cb3, 0x4ed8aa4a, 0x5b9cca4f, 0x682e6ff3]

  const K7: seq<Word> := [
    0x748f82ee, 0x78a5636f, 0x84c87814, 0x8cc70208, 0x90befffa, 0xa4506ceb, 0xbef9a3f7, 0xc67178f2]

  const K: seq<Word> := ((K0 + K1) + (K2 + K3)) + ((K4 + K5) + (K6 + K7))

  /** Section 5.3.3. */
  const H0: seq<Word> := [
    0x6a09e667, 0xbb67ae85, 0x3c6ef372, 0xa54ff53a, 0x510e527f, 0x9b05688c, 0x1f83d9ab, 0x5be0cd19]

  // ---- section 4.1.2: the functions ------------------------------------------------

  // Addition is modulo 2^32. Naming the sums keeps the proofs about whole blocks free of bit arithmetic.

  function Add(x: Word, y: Word): Word { x + y }

  function Sum4(x: Word, y: Word, z: Word, w: Word): Word { x + y + z + w }

  function Sum5(x: Word, y: Word, z: Word, w: Word, v: Word): Word { x + y + z + w + v }

  // A rotation right by n is (x >> n) | (x << (32 - n)), written out with the amounts.

  function Ch(x: Word, y: Word, z: Word): Word { (x & y) ^ (!x & z) }

  function Maj(x: Word, y: Word, z: Word): Word { (x & y) ^ (x & z) ^ (y & z) }

  function BigSigma0(x: Word): Word { ((x >> 2) | (x << 30)) ^ ((x >> 13) | (x << 19)) ^ ((x >> 22) | (x << 10)) }

  function BigSigma1(x: Word): Word { ((x >> 6) | (x << 26)) ^ ((x >> 11) | (x << 21)) ^ ((x >> 25) | (x << 7)) }

  function SmallSigma0(x: Word): Word { ((x >> 7) | (x << 25)) ^ ((x >> 18) | (x << 14)) ^ (x >> 3) }

  function SmallSigma1(x: Word): Word { ((x >> 17) | (x << 15)) ^ ((x >> 19) | (x << 13)) ^ (x >> 10) }

  // ---- section 6.2.2: one block ----------------------------------------------------

  function BigEndian32(p: seq<Byte>, at: nat): Word
    requires at + 4 <= |p|
  {
    ((p[at] as Word) << 24) | ((p[at + 1] as Word) << 16) | ((p[at + 2] as Word) << 8) | (p[at + 3] as Word)
  }

  /** The message schedule, word by word. */
  function W(block: seq<Byte>, t: nat): Word
    requires |block| == BLOCK && t < 64
  {
    if t < 16 then BigEndian32(block, 4 * t)
    else Sum4(SmallSigma1(W(block, t - 2)), W(block, t - 7), SmallSigma0(W(block, t - 15)), W(block, t - 16))
  }

  /** The same sum, taken in the opposite order. */
  lemma SumReversed(x: Word, y: Word, z: Word, w: Word)
    ensures Sum4(x, y, z, w) == Sum4(w, z, y, x)
  {
  }

  datatype Vars = Vars(a: Word, b: Word, c: Word, d: Word, e: Word, f: Word, g: Word, h: Word)

  function Round(v: Vars, k: Word, w: Word): Vars {
    var t1 := Sum5(v.h, BigSigma1(v.e), Ch(v.e, v.f, v.g), k, w);
    var t2 := Add(BigSigma0(v.a), Maj(v.a, v.b, v.c));
    Vars(Add(t1, t2), v.a, v.b, v.c, Add(v.d, t1), v.e, v.f, v.g)
  }

  function Rounds(v: Vars, block: seq<Byte>, n: nat): Vars
    requires |block| == BLOCK && n <= |K|
  {
    if n == 0 then v else Round(Rounds(v, block, n - 1), K[n - 1], W(block, n - 1))
  }

  function VarsOf(hash: seq<Word>): Vars
    requires |hash| == 8
  {
    Vars(hash[0], hash[1], hash[2], hash[3], hash[4], hash[5], hash[6], hash[7])
  }

  function SeqOf(v: Vars): (r: seq<Word>)
    ensures |r| == 8
  {
    [v.a, v.b, v.c, v.d, v.e, v.f, v.g, v.h]
  }

  function Sums(xs: seq<Word>, ys: seq<Word>): (r: seq<Word>)
    requires |xs| == |ys|
    ensures |r| == |xs| && forall i :: 0 <= i < |r| ==> r[i] == Add(xs[i], ys[i])
  {
    if xs == [] then [] else Sums(xs[..|xs| - 1], ys[..|ys| - 1]) + [Add(xs[|xs| - 1], ys[|ys| - 1])]
  }

  function Compress(hash: seq<Word>, block: seq<Byte>): (r: seq<Word>)
    requires |hash| == 8 && |block| == BLOCK
    ensures |r| == 8
  {
    Sums(hash, SeqOf(Rounds(VarsOf(hash), block, |K|)))
  }

  // ---- sections 5.1.1 and 6.2: a message -------------------------------------------

  /** Compress as a total function, for Fold. */
  function Step(hash: seq<Word>, block: seq<Byte>): seq<Word> {
    if |hash| == 8 && |block| == BLOCK then Compress(hash, block) else hash
  }

  ghost function HashOf(data: seq<Byte>): seq<Word> {
    Fold(Step, H0, data)
  }

  lemma {:induction false} HashLength(data: seq<Byte>)
    ensures |HashOf(data)| == 8
    decreases |data|
  {
    if |data| >= BLOCK {
      HashLength(data[..|data| - BLOCK]);
    }
  }

  function Zeros(n: nat): (r: seq<Byte>)
    ensures |r| == n && forall i :: 0 <= i < n ==> r[i] == 0
  {
    seq(n, _ => 0)
  }

  function Pow256(k: nat): (r: nat)
    ensures r > 0
  {
    if k == 0 then 1 else 256 * Pow256(k - 1)
  }

  /** The low k bytes of n, most significant first. */
  function BigEndian(n: nat, k: nat): (r: seq<Byte>)
    ensures |r| == k
  {
    if k == 0 then [] else BigEndian(n / 256, k - 1) + [(n % 256) as Byte]
  }

  /** Byte i is n shifted right by the bytes below it. */
  lemma {:induction false} BigEndianAt(n: nat, k: nat, i: nat)
    requires i < k
    ensures BigEndian(n, k)[i] == (n / Pow256(k - 1 - i) % 256) as Byte
  {
    if i < k - 1 {
      BigEndianAt(n / 256, k - 1, i);
      DivideTwice(n, Pow256(k - 2 - i));
    }
  }

  lemma DivideTwice(n: nat, d: nat)
    requires d > 0
    ensures n / 256 / d == n / (256 * d)
  {
    var q, r := n / 256 / d, n / 256 % d;
    var s := n % 256;
    assert n == 256 * (q * d + r) + s;
    assert n == q * (256 * d) + (256 * r + s);
    assert 0 <= 256 * r + s < 256 * d;
    QuotientIs(n, 256 * d, q, 256 * r + s);
  }

  lemma QuotientIs(n: int, d: int, q: int, r: int)
    requires d > 0 && n == q * d + r && 0 <= r < d
    ensures n / d == q
  {
    var x := n / d - q;
    assert x * d == r - n % d;
    BelowOne(x, d);
  }

  lemma BelowOne(x: int, d: int)
    requires d > 0 && -d < x * d < d
    ensures x == 0
  {
    assert x >= 1 ==> x * d >= d;
    assert x <= -1 ==> x * d <= -d;
  }

  /** The least number of zeros that makes whole blocks of message, one bit, zeros and length (section 5.1.1). */
  function ZeroCount(length: nat): (z: nat)
    ensures z < BLOCK && (length + 1 + z + 8) % BLOCK == 0
  {
    (119 - length % BLOCK) % BLOCK
  }

  /** The length of a message of n bytes, in a 64-bit counter of bits. */
  function Bits(n: nat): nat { 8 * n % TWO_64 }

  /** A one bit, zeros that leave room for the length in the last block, and the length. */
  function Pad(message: seq<Byte>): seq<Byte> {
    message + [0x80] + Zeros(ZeroCount(|message|)) + BigEndian(Bits(|message|), 8)
  }

  function WordBytes(w: Word): seq<Byte> {
    [((w >> 24) & 0xff) as Byte, ((w >> 16) & 0xff) as Byte, ((w >> 8) & 0xff) as Byte, (w & 0xff) as Byte]
  }

  function Bytes(words: seq<Word>): (r: seq<Byte>)
    ensures |r| == 4 * |words|
  {
    if words == [] then [] else Bytes(words[..|words| - 1]) + WordBytes(words[|words| - 1])
  }

  ghost function Digest(message: seq<Byte>): (r: seq<Byte>)
    ensures |r| == 32
  {
    HashLength(Pad(message));
    Bytes(HashOf(Pad(message)))
  }

  /** A message hashed but for a tail. */
  ghost predicate Absorbed(hash: seq<Word>, tail: seq<Byte>, data: seq<Byte>) {
    Folded(Step, H0, hash, tail, data)
  }

  // ---- section 2 of RFC 2104 -------------------------------------------------------

  ghost function KeyBlock(key: seq<Byte>): (r: seq<Byte>)
    ensures |r| == BLOCK
  {
    if |key| > BLOCK then Digest(key) + Zeros(BLOCK - 32) else key + Zeros(BLOCK - |key|)
  }

  function Xored(block: seq<Byte>, mask: Byte): (r: seq<Byte>)
    ensures |r| == |block|
  {
    if block == [] then [] else Xored(block[..|block| - 1], mask) + [block[|block| - 1] ^ mask]
  }

  ghost function Hmac(key: seq<Byte>, data: seq<Byte>): seq<Byte> {
    Digest(Xored(KeyBlock(key), 0x5c) + Digest(Xored(KeyBlock(key), 0x36) + data))
  }
}

/** The streaming object. */
module Sha256Class {
  import opened Blocks
  import opened Sha256Spec

  class Sha256 {
    const state: array<Word>
    const buffer: array<Byte>
    var buffered: nat
    var bitLength: nat
    ghost var message: seq<Byte>  // everything fed so far

    ghost predicate Valid()
      reads this, state, buffer
    {
      && state.Length == 8 && buffer.Length == BLOCK
      && buffered < BLOCK && Absorbed(state[..], buffer[..buffered], message)
      && bitLength == Bits(|message|)
    }

    constructor ()
      ensures Valid() && message == [] && fresh(state) && fresh(buffer)
    {
      state := new Word[8](i requires 0 <= i < 8 => H0[i]);
      buffer := new Byte[BLOCK](_ => 0);
      buffered, bitLength, message := 0, 0, [];
      new;
      assert state[..] == H0 && [] + buffer[..buffered] == [];
    }

    method CompressBlock(block: seq<Byte>)
      requires state.Length == 8 && |block| == BLOCK
      modifies state
      ensures state[..] == Compress(old(state[..]), block)
    {
      var w := Schedule(block);
      var v := RunRounds(VarsOf(state[..]), block, w);
      AddToState(SeqOf(v));
    }

    method AddToState(v: seq<Word>)
      requires state.Length == 8 == |v|
      modifies state
      ensures state[..] == Sums(old(state[..]), v)
    {
      for i := 0 to 8
        invariant forall j :: 0 <= j < i ==> state[j] == Add(old(state[j]), v[j])
        invariant forall j :: i <= j < 8 ==> state[j] == old(state[j])
      {
        state[i] := Add(state[i], v[i]);
      }
    }

    /** Copies bytes into the buffer behind those already there. */
    method Fill(bytes: seq<Byte>)
      requires buffered + |bytes| <= buffer.Length
      modifies this`buffered, buffer
      ensures buffered == old(buffered) + |bytes|
      ensures buffer[..buffered] == old(buffer[..buffered]) + bytes
    {
      forall i | 0 <= i < |bytes| {
        buffer[buffered + i] := bytes[i];
      }
      buffered := buffered + |bytes|;
    }

    /** Tops up a partly filled block, and hashes it when it is full. */
    method TopUp(bytes: seq<Byte>, ghost data: seq<Byte>)
      requires state.Length == 8 && buffer.Length == BLOCK && buffered + |bytes| <= BLOCK
      requires Absorbed(state[..], buffer[..buffered], data)
      modifies this`buffered, state, buffer
      ensures buffered == if old(buffered) + |bytes| == BLOCK then 0 else old(buffered) + |bytes|
      ensures Absorbed(state[..], buffer[..buffered], data + bytes)
    {
      FoldedMore(Step, H0, state[..], buffer[..buffered], data, bytes);
      Fill(bytes);
      if buffered == BLOCK {
        assert buffer[..] == buffer[..BLOCK];
        FoldedBlock(Step, H0, state[..], buffer[..], data + bytes);
        CompressBlock(buffer[..]);
        buffered := 0;
        assert buffer[..0] == [];
      }
    }

    /** Hashes whole blocks straight from the input, and returns how far it got. */
    method TakeBlocks(data: seq<Byte>, from: nat, ghost before: seq<Byte>) returns (p: nat)
      requires state.Length == 8 && from <= |data| && Absorbed(state[..], [], before)
      modifies state
      ensures from <= p <= |data| && |data| - p < BLOCK
      ensures Absorbed(state[..], [], before + data[from..p])
    {
      p := from;
      assert before + data[from..p] == before;
      while |data| - p >= BLOCK
        invariant from <= p <= |data| && Absorbed(state[..], [], before + data[from..p])
      {
        ghost var sofar, block := before + data[from..p], data[p..p + BLOCK];
        assert sofar + block == before + data[from..p + BLOCK] && [] + block == block;
        FoldedMore(Step, H0, state[..], [], sofar, block);
        FoldedBlock(Step, H0, state[..], block, sofar + block);
        CompressBlock(data[p..p + BLOCK]);
        p := p + BLOCK;
      }
    }

    /** Hashes the whole blocks of the input from a position, and keeps the rest. */
    method TakeRest(data: seq<Byte>, from: nat, ghost before: seq<Byte>)
      requires state.Length == 8 && buffer.Length == BLOCK && buffered == 0 && from <= |data|
      requires Absorbed(state[..], [], before)
      modifies this`buffered, state, buffer
      ensures buffered < BLOCK && Absorbed(state[..], buffer[..buffered], before + data[from..])
    {
      var p := TakeBlocks(data, from, before);
      FoldedMore(Step, H0, state[..], [], before + data[from..p], data[p..]);
      Rejoin(before, data, from, p);
      if p < |data| {
        Fill(data[p..]);
      }
      assert buffer[..buffered] == data[p..] == [] + data[p..];
    }

    method CountBits(length: nat)
      requires bitLength == Bits(|message|)
      modifies this`bitLength
      ensures bitLength == Bits(|message| + length)
    {
      bitLength := (bitLength + length * 8) % TWO_64;
    }

    method Update(data: seq<Byte>)
      requires Valid()
      modifies this, state, buffer
      ensures Valid() && message == old(message) + data
    {
      ghost var all := message + data;
      CountBits(|data|);
      Feed(data, message);
      assert bitLength == Bits(|all|);
      message := all;
    }

    method Feed(data: seq<Byte>, ghost before: seq<Byte>)
      requires state.Length == 8 && buffer.Length == BLOCK && buffered < BLOCK
      requires Absorbed(state[..], buffer[..buffered], before)
      modifies this`buffered, state, buffer
      ensures buffered < BLOCK && Absorbed(state[..], buffer[..buffered], before + data)
    {
      var p := 0;
      assert before + data[..p] == before;
      if buffered != 0 {
        p := if BLOCK - buffered <= |data| then BLOCK - buffered else |data|;
        TopUp(data[..p], before);
      }
      assert data[0..p] == data[..p];
      Rejoin(before, data, 0, p);
      assert data[0..] == data;
      if p < |data| {
        assert buffer[..buffered] == [];
        TakeRest(data, p, before + data[..p]);
      }
    }

    /** Fills up with zeros to the last eight bytes of a block, flushing this one when it has no room. */
    method PadZeros(ghost data: seq<Byte>)
      requires state.Length == 8 && buffer.Length == BLOCK && buffered <= BLOCK
      requires Absorbed(state[..], buffer[..buffered], data)
      modifies this`buffered, state, buffer
      ensures buffered == BLOCK - 8
      ensures Absorbed(state[..], buffer[..buffered], data + Zeros(ZerosAfter(old(buffered))))
    {
      if buffered > BLOCK - 8 {
        ghost var flushed := BLOCK - buffered;
        TopUp(Zeros(BLOCK - buffered), data);
        FillZeros(data + Zeros(flushed));
        ZerosJoin(data, flushed, BLOCK - 8);
      } else {
        FillZeros(data);
      }
    }

    /** Puts bytes that fit behind those waiting in the buffer. */
    method Append(bytes: seq<Byte>, ghost data: seq<Byte>)
      requires buffered + |bytes| <= buffer.Length && Absorbed(state[..], buffer[..buffered], data)
      modifies this`buffered, buffer
      ensures buffered == old(buffered) + |bytes| && Absorbed(state[..], buffer[..buffered], data + bytes)
    {
      FoldedMore(Step, H0, state[..], buffer[..buffered], data, bytes);
      Fill(bytes);
    }

    method FillZeros(ghost data: seq<Byte>)
      requires buffer.Length == BLOCK && buffered <= BLOCK - 8 && Absorbed(state[..], buffer[..buffered], data)
      modifies this`buffered, buffer
      ensures buffered == BLOCK - 8 && Absorbed(state[..], buffer[..buffered], data + Zeros(BLOCK - 8 - old(buffered)))
    {
      Append(Zeros(BLOCK - 8 - buffered), data);
    }

    /** Writes the one bit and the zeros. */
    method PadBuffer()
      requires Valid()
      modifies this`buffered, state, buffer
      ensures buffered == BLOCK - 8
      ensures Absorbed(state[..], buffer[..buffered], message + [0x80] + Zeros(ZeroCount(|message|)))
    {
      ZerosFit(state[..], buffer[..buffered], message);
      Append([0x80], message);
      PadZeros(message + [0x80]);
    }

    /** Writes the length into the last eight bytes of the buffer. */
    method StoreLength(bits: nat)
      requires buffer.Length == BLOCK && buffered == BLOCK - 8
      modifies buffer
      ensures buffer[..] == old(buffer[..buffered]) + BigEndian(bits, 8)
    {
      for i := 0 to 8
        invariant buffer[..buffered] == old(buffer[..buffered])
        invariant forall j :: 0 <= j < i ==> buffer[buffered + j] == BigEndian(bits, 8)[j]
      {
        BigEndianAt(bits, 8, i);
        buffer[BLOCK - 8 + i] := (bits / Pow256(7 - i) % 256) as Byte;
      }
    }

    method Final() returns (out: seq<Byte>)
      requires Valid()
      modifies this`buffered, state, buffer
      ensures out == Digest(message)
    {
      PadBuffer();
      ghost var data := message + [0x80] + Zeros(ZeroCount(|message|));
      FoldedMore(Step, H0, state[..], buffer[..buffered], data, BigEndian(bitLength, 8));
      StoreLength(bitLength);
      FoldedBlock(Step, H0, state[..], buffer[..], Pad(message));
      CompressBlock(buffer[..]);
      buffered := 0;
      FoldedWhole(Step, H0, state[..], Pad(message));
      out := StateBytes();
    }

    method StateBytes() returns (out: seq<Byte>)
      requires state.Length == 8
      ensures out == Bytes(state[..])
    {
      out := [];
      for i := 0 to 8
        invariant out == Bytes(state[..i])
      {
        assert state[..i + 1][..i] == state[..i];
        out := out + WordBytes(state[i]);
      }
      assert state[..8] == state[..];
    }
  }

  /** How many zeros follow a block filled so far up to the last eight bytes of it or of the next. */
  function ZerosAfter(filled: nat): nat
    requires filled <= BLOCK
  {
    if filled > BLOCK - 8 then BLOCK - filled + BLOCK - 8 else BLOCK - 8 - filled
  }

  lemma ZerosJoin(data: seq<Byte>, m: nat, n: nat)
    ensures data + Zeros(m) + Zeros(n) == data + Zeros(m + n)
  {
    assert Zeros(m) + Zeros(n) == Zeros(m + n);
  }

  lemma ZerosFit(hash: seq<Word>, tail: seq<Byte>, data: seq<Byte>)
    requires Absorbed(hash, tail, data) && |tail| < BLOCK
    ensures ZerosAfter(|tail| + 1) == ZeroCount(|data|)
  {
    assert |data| % BLOCK == |tail|;
  }

  /** The digest of one string. */
  method Sha256Raw(data: seq<Byte>) returns (out: seq<Byte>)
    ensures out == Digest(data)
  {
    var context := new Sha256();
    context.Update(data);
    assert [] + data == data;
    out := context.Final();
  }

  function Concat(pieces: seq<seq<Byte>>): seq<Byte> {
    if pieces == [] then [] else Concat(pieces[..|pieces| - 1]) + pieces[|pieces| - 1]
  }

  /** However a message is cut up, feeding the pieces gives the digest of the whole. */
  method DigestOfPieces(pieces: seq<seq<Byte>>) returns (out: seq<Byte>)
    ensures out == Digest(Concat(pieces))
  {
    var context := new Sha256();
    for i := 0 to |pieces|
      invariant context.Valid() && fresh(context) && fresh(context.state) && fresh(context.buffer)
      invariant context.message == Concat(pieces[..i])
    {
      assert pieces[..i + 1][..i] == pieces[..i];
      context.Update(pieces[i]);
    }
    assert pieces[..|pieces|] == pieces;
    out := context.Final();
  }

  method HmacSha256(key: seq<Byte>, data: seq<Byte>) returns (out: seq<Byte>)
    ensures out == Hmac(key, data)
  {
    var keyBlock;
    if |key| > BLOCK {
      var hashed := Sha256Raw(key);
      keyBlock := hashed + Zeros(BLOCK - 32);
    } else {
      keyBlock := key + Zeros(BLOCK - |key|);
    }
    var innerPad, outerPad := Pads(keyBlock);
    var inner := DigestOfPieces([innerPad, data]);
    TwoPieces(innerPad, data);
    out := DigestOfPieces([outerPad, inner]);
    TwoPieces(outerPad, inner);
  }

  method Pads(keyBlock: seq<Byte>) returns (innerPad: seq<Byte>, outerPad: seq<Byte>)
    requires |keyBlock| == BLOCK
    ensures innerPad == Xored(keyBlock, 0x36) && outerPad == Xored(keyBlock, 0x5c)
  {
    innerPad, outerPad := [], [];
    for i := 0 to BLOCK
      invariant innerPad == Xored(keyBlock[..i], 0x36) && outerPad == Xored(keyBlock[..i], 0x5c)
    {
      assert keyBlock[..i + 1][..i] == keyBlock[..i];
      innerPad := innerPad + [keyBlock[i] ^ 0x36];
      outerPad := outerPad + [keyBlock[i] ^ 0x5c];
    }
    assert keyBlock[..BLOCK] == keyBlock;
  }

  lemma TwoPieces(first: seq<Byte>, second: seq<Byte>)
    ensures Concat([first, second]) == first + second
  {
    assert [first, second][..1] == [first];
    assert Concat([first]) == Concat([]) + first == first;
  }

  lemma Rejoin(before: seq<Byte>, data: seq<Byte>, from: nat, p: nat)
    requires from <= p <= |data|
    ensures before + data[from..p] + data[p..] == before + data[from..]
  {
    assert data[from..p] + data[p..] == data[from..];
  }

  /** The sixty-four words of the message schedule, each from the ones before it. */
  method Schedule(block: seq<Byte>) returns (w: array<Word>)
    requires |block| == BLOCK
    ensures w.Length == 64 && forall t :: 0 <= t < 64 ==> w[t] == W(block, t)
  {
    w := new Word[64];
    for i := 0 to 16
      invariant forall t :: 0 <= t < i ==> w[t] == W(block, t)
    {
      w[i] := BigEndian32(block, 4 * i);
    }
    for i := 16 to 64
      invariant forall t :: 0 <= t < i ==> w[t] == W(block, t)
    {
      var s0 := SmallSigma0(w[i - 15]);
      var s1 := SmallSigma1(w[i - 2]);
      SumReversed(w[i - 16], s0, w[i - 7], s1);
      w[i] := Sum4(w[i - 16], s0, w[i - 7], s1);
    }
  }

  method RunRounds(start: Vars, block: seq<Byte>, w: array<Word>) returns (v: Vars)
    requires |block| == BLOCK && w.Length == 64 && forall t :: 0 <= t < 64 ==> w[t] == W(block, t)
    ensures v == Rounds(start, block, |K|)
  {
    var Vars(a, b, c, d, e, f, g, h) := start;
    for i := 0 to |K|
      invariant Vars(a, b, c, d, e, f, g, h) == Rounds(start, block, i)
    {
      var t1 := Sum5(h, BigSigma1(e), Ch(e, f, g), K[i], w[i]);
      var t2 := Add(BigSigma0(a), Maj(a, b, c));
      h := g;
      g := f;
      f := e;
      e := Add(d, t1);
      d := c;
      c := b;
      b := a;
      a := Add(t1, t2);
    }
    v := Vars(a, b, c, d, e, f, g, h);
  }
}
