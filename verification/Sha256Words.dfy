/** The word functions and constants of FIPS 180-4, apart from how they are written down. */
module Sha256Words {
  import opened Blocks
  import opened Sha256Spec

  /** The place of a bit in a word. Places are added modulo 32. */
  type Place = bv5

  function OneBit(i: Place): Word { 1 << i }

  predicate Has(x: Word, m: Word) { x & m != 0 }

  predicate Bit(x: Word, i: Place) { Has(x, OneBit(i)) }

  predicate OneHot(m: Word) { m != 0 && m & (m - 1) == 0 }

  predicate Odd(a: bool, b: bool, c: bool) { a != (b != c) }

  predicate Most(a: bool, b: bool, c: bool) { (a && b) || (a && c) || (b && c) }

  lemma OneBitIsOneHot(i: Place)
    ensures OneHot(OneBit(i))
  {
  }

  // ---- choice and majority ---------------------------------------------------------

  lemma ChooseHas(x: Word, y: Word, z: Word, m: Word)
    requires OneHot(m)
    ensures Has((x & y) ^ (!x & z), m) == if Has(x, m) then Has(y, m) else Has(z, m)
  {
  }

  lemma MajorityHas(x: Word, y: Word, z: Word, m: Word)
    requires OneHot(m)
    ensures Has((x & y) ^ (x & z) ^ (y & z), m) == Most(Has(x, m), Has(y, m), Has(z, m))
  {
  }

  /** Each bit of x chooses between the bits of y and z. */
  lemma ChooseBits(x: Word, y: Word, z: Word, i: Place)
    ensures Bit(Ch(x, y, z), i) == if Bit(x, i) then Bit(y, i) else Bit(z, i)
  {
    OneBitIsOneHot(i);
    ChooseHas(x, y, z, OneBit(i));
  }

  lemma MajorityBits(x: Word, y: Word, z: Word, i: Place)
    ensures Bit(Maj(x, y, z), i) == Most(Bit(x, i), Bit(y, i), Bit(z, i))
  {
    OneBitIsOneHot(i);
    MajorityHas(x, y, z, OneBit(i));
  }

  // ---- the sigmas ------------------------------------------------------------------

  lemma SumHas(x: Word, y: Word, z: Word, m: Word)
    requires OneHot(m)
    ensures Has(x ^ y ^ z, m) == Odd(Has(x, m), Has(y, m), Has(z, m))
  {
  }

  lemma NothingHas(x: Word)
    ensures !Has(x, 0)
  {
  }

  /** What a sigma has at one place, given the places it looks at. */
  lemma AtPlaces(x: Word, sigma: Word, i: Place, j: Place, k: Place, l: Place, inside: bool, m: Word, n: Word, o: Word)
    requires m == OneBit(j) && n == OneBit(k) && o == if inside then OneBit(l) else 0
    requires Has(sigma, OneBit(i)) == Odd(Has(x, m), Has(x, n), Has(x, o))
    ensures Bit(sigma, i) == Odd(Bit(x, j), Bit(x, k), inside && Bit(x, l))
  {
    NothingHas(x);
    assert Bit(x, j) == Has(x, m) && Bit(x, k) == Has(x, n);
    assert Has(x, o) == (inside && Bit(x, l));
  }

  lemma BigSigma0Turn0(x: Word, m: Word)
    ensures Has((x >> 2) | (x << 30), m) == Has(x, (m << 2) | (m >> 30))
  {
  }

  lemma BigSigma0Turn1(x: Word, m: Word)
    ensures Has((x >> 13) | (x << 19), m) == Has(x, (m << 13) | (m >> 19))
  {
  }

  lemma BigSigma0Turn2(x: Word, m: Word)
    ensures Has((x >> 22) | (x << 10), m) == Has(x, (m << 22) | (m >> 10))
  {
  }

  lemma BigSigma0Has(x: Word, m: Word)
    requires OneHot(m)
    ensures Has(BigSigma0(x), m)
            == Odd(Has(x, (m << 2) | (m >> 30)), Has(x, (m << 13) | (m >> 19)), Has(x, (m << 22) | (m >> 10)))
  {
    BigSigma0Turn0(x, m);
    BigSigma0Turn1(x, m);
    BigSigma0Turn2(x, m);
    SumHas((x >> 2) | (x << 30), (x >> 13) | (x << 19), (x >> 22) | (x << 10), m);
  }

  lemma BigSigma0Masks(i: Place)
    ensures (OneBit(i) << 2) | (OneBit(i) >> 30) == OneBit(i + 2)
    ensures (OneBit(i) << 13) | (OneBit(i) >> 19) == OneBit(i + 13)
    ensures (OneBit(i) << 22) | (OneBit(i) >> 10) == OneBit(i + 22)
  {
  }

  lemma BigSigma0Bits(x: Word, i: Place)
    ensures Bit(BigSigma0(x), i) == Odd(Bit(x, i + 2), Bit(x, i + 13), Bit(x, i + 22))
  {
    var m := OneBit(i);
    OneBitIsOneHot(i);
    BigSigma0Has(x, m);
    BigSigma0Masks(i);
    AtPlaces(x, BigSigma0(x), i, i + 2, i + 13, i + 22, true,
             (m << 2) | (m >> 30), (m << 13) | (m >> 19), (m << 22) | (m >> 10));
  }

  lemma BigSigma1Turn0(x: Word, m: Word)
    ensures Has((x >> 6) | (x << 26), m) == Has(x, (m << 6) | (m >> 26))
  {
  }

  lemma BigSigma1Turn1(x: Word, m: Word)
    ensures Has((x >> 11) | (x << 21), m) == Has(x, (m << 11) | (m >> 21))
  {
  }

  lemma BigSigma1Turn2(x: Word, m: Word)
    ensures Has((x >> 25) | (x << 7), m) == Has(x, (m << 25) | (m >> 7))
  {
  }

  lemma BigSigma1Has(x: Word, m: Word)
    requires OneHot(m)
    ensures Has(BigSigma1(x), m)
            == Odd(Has(x, (m << 6) | (m >> 26)), Has(x, (m << 11) | (m >> 21)), Has(x, (m << 25) | (m >> 7)))
  {
    BigSigma1Turn0(x, m);
    BigSigma1Turn1(x, m);
    BigSigma1Turn2(x, m);
    SumHas((x >> 6) | (x << 26), (x >> 11) | (x << 21), (x >> 25) | (x << 7), m);
  }

  lemma BigSigma1Masks(i: Place)
    ensures (OneBit(i) << 6) | (OneBit(i) >> 26) == OneBit(i + 6)
    ensures (OneBit(i) << 11) | (OneBit(i) >> 21) == OneBit(i + 11)
    ensures (OneBit(i) << 25) | (OneBit(i) >> 7) == OneBit(i + 25)
  {
  }

  lemma BigSigma1Bits(x: Word, i: Place)
    ensures Bit(BigSigma1(x), i) == Odd(Bit(x, i + 6), Bit(x, i + 11), Bit(x, i + 25))
  {
    var m := OneBit(i);
    OneBitIsOneHot(i);
    BigSigma1Has(x, m);
    BigSigma1Masks(i);
    AtPlaces(x, BigSigma1(x), i, i + 6, i + 11, i + 25, true,
             (m << 6) | (m >> 26), (m << 11) | (m >> 21), (m << 25) | (m >> 7));
  }

  lemma SmallSigma0Turn0(x: Word, m: Word)
    ensures Has((x >> 7) | (x << 25), m) == Has(x, (m << 7) | (m >> 25))
  {
  }

  lemma SmallSigma0Turn1(x: Word, m: Word)
    ensures Has((x >> 18) | (x << 14), m) == Has(x, (m << 18) | (m >> 14))
  {
  }

  lemma SmallSigma0Turn2(x: Word, m: Word)
    ensures Has(x >> 3, m) == Has(x, m << 3)
  {
  }

  lemma SmallSigma0Has(x: Word, m: Word)
    requires OneHot(m)
    ensures Has(SmallSigma0(x), m)
            == Odd(Has(x, (m << 7) | (m >> 25)), Has(x, (m << 18) | (m >> 14)), Has(x, m << 3))
  {
    SmallSigma0Turn0(x, m);
    SmallSigma0Turn1(x, m);
    SmallSigma0Turn2(x, m);
    SumHas((x >> 7) | (x << 25), (x >> 18) | (x << 14), x >> 3, m);
  }

  lemma SmallSigma0Masks(i: Place)
    ensures (OneBit(i) << 7) | (OneBit(i) >> 25) == OneBit(i + 7)
    ensures (OneBit(i) << 18) | (OneBit(i) >> 14) == OneBit(i + 18)
    ensures OneBit(i) << 3 == if i < 29 then OneBit(i + 3) else 0
  {
  }

  lemma SmallSigma0Bits(x: Word, i: Place)
    ensures Bit(SmallSigma0(x), i) == Odd(Bit(x, i + 7), Bit(x, i + 18), i < 29 && Bit(x, i + 3))
  {
    var m := OneBit(i);
    OneBitIsOneHot(i);
    SmallSigma0Has(x, m);
    SmallSigma0Masks(i);
    AtPlaces(x, SmallSigma0(x), i, i + 7, i + 18, i + 3, i < 29,
             (m << 7) | (m >> 25), (m << 18) | (m >> 14), m << 3);
  }

  lemma SmallSigma1Turn0(x: Word, m: Word)
    ensures Has((x >> 17) | (x << 15), m) == Has(x, (m << 17) | (m >> 15))
  {
  }

  lemma SmallSigma1Turn1(x: Word, m: Word)
    ensures Has((x >> 19) | (x << 13), m) == Has(x, (m << 19) | (m >> 13))
  {
  }

  lemma SmallSigma1Turn2(x: Word, m: Word)
    ensures Has(x >> 10, m) == Has(x, m << 10)
  {
  }

  lemma SmallSigma1Has(x: Word, m: Word)
    requires OneHot(m)
    ensures Has(SmallSigma1(x), m)
            == Odd(Has(x, (m << 17) | (m >> 15)), Has(x, (m << 19) | (m >> 13)), Has(x, m << 10))
  {
    SmallSigma1Turn0(x, m);
    SmallSigma1Turn1(x, m);
    SmallSigma1Turn2(x, m);
    SumHas((x >> 17) | (x << 15), (x >> 19) | (x << 13), x >> 10, m);
  }

  lemma SmallSigma1Masks(i: Place)
    ensures (OneBit(i) << 17) | (OneBit(i) >> 15) == OneBit(i + 17)
    ensures (OneBit(i) << 19) | (OneBit(i) >> 13) == OneBit(i + 19)
    ensures OneBit(i) << 10 == if i < 22 then OneBit(i + 10) else 0
  {
  }

  lemma SmallSigma1Bits(x: Word, i: Place)
    ensures Bit(SmallSigma1(x), i) == Odd(Bit(x, i + 17), Bit(x, i + 19), i < 22 && Bit(x, i + 10))
  {
    var m := OneBit(i);
    OneBitIsOneHot(i);
    SmallSigma1Has(x, m);
    SmallSigma1Masks(i);
    AtPlaces(x, SmallSigma1(x), i, i + 17, i + 19, i + 10, i < 22,
             (m << 17) | (m >> 15), (m << 19) | (m >> 13), m << 10);
  }

  // ---- words and bytes -------------------------------------------------------------

  /** Reading a word where it was written gives it back. */
  lemma WordReadsBack(w: Word)
    ensures BigEndian32(WordBytes(w), 0) == w
  {
  }

  /** The bytes of a digest are those of its words, in order. */
  lemma {:induction false} BytesAt(words: seq<Word>, i: nat)
    requires i < |words|
    ensures Bytes(words)[4 * i..4 * i + 4] == WordBytes(words[i])
  {
    var n := |words| - 1;
    if i < n {
      BytesAt(words[..n], i);
      assert Bytes(words)[4 * i..4 * i + 4] == Bytes(words[..n])[4 * i..4 * i + 4];
    }
  }

  /** So the bytes of words, most significant first, are read back as the words. */
  lemma BytesReadBack(words: seq<Word>, i: nat)
    requires i < |words|
    ensures |Bytes(words)| >= 4 * i + 4 && BigEndian32(Bytes(words), 4 * i) == words[i]
  {
    BytesAt(words, i);
    WordReadsBack(words[i]);
    var all, at, own := Bytes(words), 4 * i, Bytes(words)[4 * i..4 * i + 4];
    assert all[at] == own[0] && all[at + 1] == own[1] && all[at + 2] == own[2] && all[at + 3] == own[3];
  }
}
