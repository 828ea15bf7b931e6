/**
 The one-block example that comes with FIPS 180-4: the digest of "abc". It pins
 how the pieces are put together: the schedule, the rounds, the padding and the
 order of bytes.
 */
module Sha256Example {
  import opened Blocks
  import opened Sha256Spec

  const ABC: seq<Byte> := [0x61, 0x62, 0x63]

  /** The padded message: the three bytes, the one bit, zeros, and a length of 24 bits. */
  predicate IsPadded(block: seq<Byte>) {
    && |block| == BLOCK && block[0] == 0x61 && block[1] == 0x62 && block[2] == 0x63 && block[3] == 0x80
    && (forall i :: 4 <= i < 63 ==> block[i] == 0) && block[63] == 0x18
  }

  // ---- the schedule ----------------------------------------------------------------

  lemma WordIs(block: seq<Byte>, t: nat, a: Word, b: Word, c: Word, d: Word, w: Word)
    requires |block| == BLOCK && 16 <= t < 64
    requires W(block, t - 2) == a && W(block, t - 7) == b && W(block, t - 15) == c && W(block, t - 16) == d
    requires Sum4(SmallSigma1(a), b, SmallSigma0(c), d) == w
    ensures W(block, t) == w
  {
  }

  lemma Words0(block: seq<Byte>)
    requires IsPadded(block)
    ensures W(block, 0) == 0x61626380 && W(block, 15) == 0x00000018
    ensures forall t :: 1 <= t < 15 ==> W(block, t) == 0
  {
  }

  lemma Words16(block: seq<Byte>)
    requires IsPadded(block)
    ensures W(block, 16) == 0x61626380 && W(block, 17) == 0x000f0000
    ensures W(block, 18) == 0x7da86405 && W(block, 19) == 0x600003c6
    ensures W(block, 20) == 0x3e9d7b78 && W(block, 21) == 0x0183fc00
    ensures W(block, 22) == 0x12dcbfdb && W(block, 23) == 0xe2e2c38e
    ensures W(block, 24) == 0xc8215c1a && W(block, 25) == 0xb73679a2
    ensures W(block, 26) == 0xe5bc3909 && W(block, 27) == 0x32663c5b
    ensures W(block, 28) == 0x9d209d67 && W(block, 29) == 0xec8726cb
    ensures W(block, 30) == 0x702138a4 && W(block, 31) == 0xd3b7973b
  {
    Words0(block);
    WordIs(block, 16, 0x00000000, 0x00000000, 0x00000000, 0x61626380, 0x61626380);
    WordIs(block, 17, 0x00000018, 0x00000000, 0x00000000, 0x00000000, 0x000f0000);
    WordIs(block, 18, 0x61626380, 0x00000000, 0x00000000, 0x00000000, 0x7da86405);
    WordIs(block, 19, 0x000f0000, 0x00000000, 0x00000000, 0x00000000, 0x600003c6);
    WordIs(block, 20, 0x7da86405, 0x00000000, 0x00000000, 0x00000000, 0x3e9d7b78);
    WordIs(block, 21, 0x600003c6, 0x00000000, 0x00000000, 0x00000000, 0x0183fc00);
    WordIs(block, 22, 0x3e9d7b78, 0x00000018, 0x00000000, 0x00000000, 0x12dcbfdb);
    WordIs(block, 23, 0x0183fc00, 0x61626380, 0x00000000, 0x00000000, 0xe2e2c38e);
    WordIs(block, 24, 0x12dcbfdb, 0x000f0000, 0x00000000, 0x00000000, 0xc8215c1a);
    WordIs(block, 25, 0xe2e2c38e, 0x7da86405, 0x00000000, 0x00000000, 0xb73679a2);
    WordIs(block, 26, 0xc8215c1a, 0x600003c6, 0x00000000, 0x00000000, 0xe5bc3909);
    WordIs(block, 27, 0xb73679a2, 0x3e9d7b78, 0x00000000, 0x00000000, 0x32663c5b);
    WordIs(block, 28, 0xe5bc3909, 0x0183fc00, 0x00000000, 0x00000000, 0x9d209d67);
    WordIs(block, 29, 0x32663c5b, 0x12dcbfdb, 0x00000000, 0x00000000, 0xec8726cb);
    WordIs(block, 30, 0x9d209d67, 0xe2e2c38e, 0x00000018, 0x00000000, 0x702138a4);
    WordIs(block, 31, 0xec8726cb, 0xc8215c1a, 0x61626380, 0x00000018, 0xd3b7973b);
  }

  lemma Words32(block: seq<Byte>)
    requires IsPadded(block)
    ensures W(block, 32) == 0x93f5997f && W(block, 33) == 0x3b68ba73
    ensures W(block, 34) == 0xaff4ffc1 && W(block, 35) == 0xf10a5c62
    ensures W(block, 36) == 0x0a8b3996 && W(block, 37) == 0x72af830a
    ensures W(block, 38) == 0x9409e33e && W(block, 39) == 0x24641522
    ensures W(block, 40) == 0x9f47bf94 && W(block, 41) == 0xf0a64f5a
    ensures W(block, 42) == 0x3e246a79 && W(block, 43) == 0x27333ba3
    ensures W(block, 44) == 0x0c4763f2 && W(block, 45) == 0x840abf27
    ensures W(block, 46) == 0x7a290d5d && W(block, 47) == 0x065c43da
  {
    Words16(block);
    WordIs(block, 32, 0x702138a4, 0xb73679a2, 0x000f0000, 0x61626380, 0x93f5997f);
    WordIs(block, 33, 0xd3b7973b, 0xe5bc3909, 0x7da86405, 0x000f0000, 0x3b68ba73);
    WordIs(block, 34, 0x93f5997f, 0x32663c5b, 0x600003c6, 0x7da86405, 0xaff4ffc1);
    WordIs(block, 35, 0x3b68ba73, 0x9d209d67, 0x3e9d7b78, 0x600003c6, 0xf10a5c62);
    WordIs(block, 36, 0xaff4ffc1, 0xec8726cb, 0x0183fc00, 0x3e9d7b78, 0x0a8b3996);
    WordIs(block, 37, 0xf10a5c62, 0x702138a4, 0x12dcbfdb, 0x0183fc00, 0x72af830a);
    WordIs(block, 38, 0x0a8b3996, 0xd3b7973b, 0xe2e2c38e, 0x12dcbfdb, 0x9409e33e);
    WordIs(block, 39, 0x72af830a, 0x93f5997f, 0xc8215c1a, 0xe2e2c38e, 0x24641522);
    WordIs(block, 40, 0x9409e33e, 0x3b68ba73, 0xb73679a2, 0xc8215c1a, 0x9f47bf94);
    WordIs(block, 41, 0x24641522, 0xaff4ffc1, 0xe5bc3909, 0xb73679a2, 0xf0a64f5a);
    WordIs(block, 42, 0x9f47bf94, 0xf10a5c62, 0x32663c5b, 0xe5bc3909, 0x3e246a79);
    WordIs(block, 43, 0xf0a64f5a, 0x0a8b3996, 0x9d209d67, 0x32663c5b, 0x27333ba3);
    WordIs(block, 44, 0x3e246a79, 0x72af830a, 0xec8726cb, 0x9d209d67, 0x0c4763f2);
    WordIs(block, 45, 0x27333ba3, 0x9409e33e, 0x702138a4, 0xec8726cb, 0x840abf27);
    WordIs(block, 46, 0x0c4763f2, 0x24641522, 0xd3b7973b, 0x702138a4, 0x7a290d5d);
    WordIs(block, 47, 0x840abf27, 0x9f47bf94, 0x93f5997f, 0xd3b7973b, 0x065c43da);
  }

  lemma Words48(block: seq<Byte>)
    requires IsPadded(block)
    ensures W(block, 48) == 0xfb3e89cb && W(block, 49) == 0xcc7617db
    ensures W(block, 50) == 0xb9e66c34 && W(block, 51) == 0xa9993667
    ensures W(block, 52) == 0x84badedd && W(block, 53) == 0xc21462bc
    ensures W(block, 54) == 0x1487472c && W(block, 55) == 0xb20f7a99
    ensures W(block, 56) == 0xef57b9cd && W(block, 57) == 0xebe6b238
    ensures W(block, 58) == 0x9fe3095e && W(block, 59) == 0x78bc8d4b
    ensures W(block, 60) == 0xa43fcf15 && W(block, 61) == 0x668b2ff8
    ensures W(block, 62) == 0xeeaba2cc && W(block, 63) == 0x12b1edeb
  {
    Words32(block);
    WordIs(block, 48, 0x7a290d5d, 0xf0a64f5a, 0x3b68ba73, 0x93f5997f, 0xfb3e89cb);
    WordIs(block, 49, 0x065c43da, 0x3e246a79, 0xaff4ffc1, 0x3b68ba73, 0xcc7617db);
    WordIs(block, 50, 0xfb3e89cb, 0x27333ba3, 0xf10a5c62, 0xaff4ffc1, 0xb9e66c34);
    WordIs(block, 51, 0xcc7617db, 0x0c4763f2, 0x0a8b3996, 0xf10a5c62, 0xa9993667);
    WordIs(block, 52, 0xb9e66c34, 0x840abf27, 0x72af830a, 0x0a8b3996, 0x84badedd);
    WordIs(block, 53, 0xa9993667, 0x7a290d5d, 0x9409e33e, 0x72af830a, 0xc21462bc);
    WordIs(block, 54, 0x84badedd, 0x065c43da, 0x24641522, 0x9409e33e, 0x1487472c);
    WordIs(block, 55, 0xc21462bc, 0xfb3e89cb, 0x9f47bf94, 0x24641522, 0xb20f7a99);
    WordIs(block, 56, 0x1487472c, 0xcc7617db, 0xf0a64f5a, 0x9f47bf94, 0xef57b9cd);
    WordIs(block, 57, 0xb20f7a99, 0xb9e66c34, 0x3e246a79, 0xf0a64f5a, 0xebe6b238);
    WordIs(block, 58, 0xef57b9cd, 0xa9993667, 0x27333ba3, 0x3e246a79, 0x9fe3095e);
    WordIs(block, 59, 0xebe6b238, 0x84badedd, 0x0c4763f2, 0x27333ba3, 0x78bc8d4b);
    WordIs(block, 60, 0x9fe3095e, 0xc21462bc, 0x840abf27, 0x0c4763f2, 0xa43fcf15);
    WordIs(block, 61, 0x78bc8d4b, 0x1487472c, 0x7a290d5d, 0x840abf27, 0x668b2ff8);
    WordIs(block, 62, 0xa43fcf15, 0xb20f7a99, 0x065c43da, 0x7a290d5d, 0xeeaba2cc);
    WordIs(block, 63, 0x668b2ff8, 0xef57b9cd, 0xfb3e89cb, 0x065c43da, 0x12b1edeb);
  }

  // ---- the rounds ------------------------------------------------------------------

  lemma RoundIs(block: seq<Byte>, n: nat, v: Vars, w: Word, k: Word, a: Word, e: Word)
    requires |block| == BLOCK && n < 64 && Rounds(VarsOf(H0), block, n) == v && W(block, n) == w && K[n] == k
    requires Round(v, k, w) == Vars(a, v.a, v.b, v.c, e, v.e, v.f, v.g)
    ensures Rounds(VarsOf(H0), block, n + 1) == Vars(a, v.a, v.b, v.c, e, v.e, v.f, v.g)
  {
  }

  lemma Rounds8(block: seq<Byte>)
    requires IsPadded(block)
    ensures Rounds(VarsOf(H0), block, 8) ==
            Vars(0x85a07b5f, 0xe5030380, 0x2b4209f5, 0x04409a6a, 0x0c657a79, 0x9b27a401, 0x714260ad, 0x43ada245)
  {
    Words0(block);
    var v := Vars(0x6a09e667, 0xbb67ae85, 0x3c6ef372, 0xa54ff53a, 0x510e527f, 0x9b05688c, 0x1f83d9ab, 0x5be0cd19);
    RoundIs(block, 0, v, 0x61626380, 0x428a2f98, 0x5d6aebcd, 0xfa2a4622);
    v := Vars(0x5d6aebcd, v.a, v.b, v.c, 0xfa2a4622, v.e, v.f, v.g);
    RoundIs(block, 1, v, 0x00000000, 0x71374491, 0x5a6ad9ad, 0x78ce7989);
    v := Vars(0x5a6ad9ad, v.a, v.b, v.c, 0x78ce7989, v.e, v.f, v.g);
    RoundIs(block, 2, v, 0x00000000, 0xb5c0fbcf, 0xc8c347a7, 0xf92939eb);
    v := Vars(0xc8c347a7, v.a, v.b, v.c, 0xf92939eb, v.e, v.f, v.g);
    RoundIs(block, 3, v, 0x00000000, 0xe9b5dba5, 0xd550f666, 0x24e00850);
    v := Vars(0xd550f666, v.a, v.b, v.c, 0x24e00850, v.e, v.f, v.g);
    RoundIs(block, 4, v, 0x00000000, 0x3956c25b, 0x04409a6a, 0x43ada245);
    v := Vars(0x04409a6a, v.a, v.b, v.c, 0x43ada245, v.e, v.f, v.g);
    RoundIs(block, 5, v, 0x00000000, 0x59f111f1, 0x2b4209f5, 0x714260ad);
    v := Vars(0x2b4209f5, v.a, v.b, v.c, 0x714260ad, v.e, v.f, v.g);
    RoundIs(block, 6, v, 0x00000000, 0x923f82a4, 0xe5030380, 0x9b27a401);
    v := Vars(0xe5030380, v.a, v.b, v.c, 0x9b27a401, v.e, v.f, v.g);
    RoundIs(block, 7, v, 0x00000000, 0xab1c5ed5, 0x85a07b5f, 0x0c657a79);
  }

  lemma Rounds16(block: seq<Byte>)
    requires IsPadded(block)
    ensures Rounds(VarsOf(H0), block, 16) ==
            Vars(0xb0fa238e, 0xc0645fde, 0xd932eb16, 0x87912990, 0x07590dcd, 0x0b92f20c, 0x745a48de, 0x1e578218)
  {
    Words0(block);
    Rounds8(block);
    var v := Vars(0x85a07b5f, 0xe5030380, 0x2b4209f5, 0x04409a6a, 0x0c657a79, 0x9b27a401, 0x714260ad, 0x43ada245);
    RoundIs(block, 8, v, 0x00000000, 0xd807aa98, 0x8e04ecb9, 0x32ca2d8c);
    v := Vars(0x8e04ecb9, v.a, v.b, v.c, 0x32ca2d8c, v.e, v.f, v.g);
    RoundIs(block, 9, v, 0x00000000, 0x12835b01, 0x8c87346b, 0x1cc92596);
    v := Vars(0x8c87346b, v.a, v.b, v.c, 0x1cc92596, v.e, v.f, v.g);
    RoundIs(block, 10, v, 0x00000000, 0x243185be, 0x4798a3f4, 0x436b23e8);
    v := Vars(0x4798a3f4, v.a, v.b, v.c, 0x436b23e8, v.e, v.f, v.g);
    RoundIs(block, 11, v, 0x00000000, 0x550c7dc3, 0xf71fc5a9, 0x816fd6e9);
    v := Vars(0xf71fc5a9, v.a, v.b, v.c, 0x816fd6e9, v.e, v.f, v.g);
    RoundIs(block, 12, v, 0x00000000, 0x72be5d74, 0x87912990, 0x1e578218);
    v := Vars(0x87912990, v.a, v.b, v.c, 0x1e578218, v.e, v.f, v.g);
    RoundIs(block, 13, v, 0x00000000, 0x80deb1fe, 0xd932eb16, 0x745a48de);
    v := Vars(0xd932eb16, v.a, v.b, v.c, 0x745a48de, v.e, v.f, v.g);
    RoundIs(block, 14, v, 0x00000000, 0x9bdc06a7, 0xc0645fde, 0x0b92f20c);
    v := Vars(0xc0645fde, v.a, v.b, v.c, 0x0b92f20c, v.e, v.f, v.g);
    RoundIs(block, 15, v, 0x00000018, 0xc19bf174, 0xb0fa238e, 0x07590dcd);
  }

  lemma Rounds24(block: seq<Byte>)
    requires IsPadded(block)
    ensures Rounds(VarsOf(H0), block, 24) ==
            Vars(0xc5d53d8d, 0xa7a3623f, 0xc2606d6d, 0x9dc68b63, 0xaa47c347, 0x49f5114a, 0xe1257970, 0x8ada8930)
  {
    Words16(block);
    Rounds16(block);
    var v := Vars(0xb0fa238e, 0xc0645fde, 0xd932eb16, 0x87912990, 0x07590dcd, 0x0b92f20c, 0x745a48de, 0x1e578218);
    RoundIs(block, 16, v, 0x61626380, 0xe49b69c1, 0x21da9a9b, 0x8034229c);
    v := Vars(0x21da9a9b, v.a, v.b, v.c, 0x8034229c, v.e, v.f, v.g);
    RoundIs(block, 17, v, 0x000f0000, 0xefbe4786, 0xc2fbd9d1, 0x846ee454);
    v := Vars(0xc2fbd9d1, v.a, v.b, v.c, 0x846ee454, v.e, v.f, v.g);
    RoundIs(block, 18, v, 0x7da86405, 0x0fc19dc6, 0xfe777bbf, 0xcc899961);
    v := Vars(0xfe777bbf, v.a, v.b, v.c, 0xcc899961, v.e, v.f, v.g);
    RoundIs(block, 19, v, 0x600003c6, 0x240ca1cc, 0xe1f20c33, 0xb0638179);
    v := Vars(0xe1f20c33, v.a, v.b, v.c, 0xb0638179, v.e, v.f, v.g);
    RoundIs(block, 20, v, 0x3e9d7b78, 0x2de92c6f, 0x9dc68b63, 0x8ada8930);
    v := Vars(0x9dc68b63, v.a, v.b, v.c, 0x8ada8930, v.e, v.f, v.g);
    RoundIs(block, 21, v, 0x0183fc00, 0x4a7484aa, 0xc2606d6d, 0xe1257970);
    v := Vars(0xc2606d6d, v.a, v.b, v.c, 0xe1257970, v.e, v.f, v.g);
    RoundIs(block, 22, v, 0x12dcbfdb, 0x5cb0a9dc, 0xa7a3623f, 0x49f5114a);
    v := Vars(0xa7a3623f, v.a, v.b, v.c, 0x49f5114a, v.e, v.f, v.g);
    RoundIs(block, 23, v, 0xe2e2c38e, 0x76f988da, 0xc5d53d8d, 0xaa47c347);
  }

  lemma Rounds32(block: seq<Byte>)
    requires IsPadded(block)
    ensures Rounds(VarsOf(H0), block, 32) ==
            Vars(0x73b33bf5, 0xea992a22, 0xa0060b30, 0x363482c9, 0xba591112, 0x0109ab3a, 0xade79437, 0x6112a3b7)
  {
    Words16(block);
    Rounds24(block);
    var v := Vars(0xc5d53d8d, 0xa7a3623f, 0xc2606d6d, 0x9dc68b63, 0xaa47c347, 0x49f5114a, 0xe1257970, 0x8ada8930);
    RoundIs(block, 24, v, 0xc8215c1a, 0x983e5152, 0x1c2c2838, 0x2823ef91);
    v := Vars(0x1c2c2838, v.a, v.b, v.c, 0x2823ef91, v.e, v.f, v.g);
    RoundIs(block, 25, v, 0xb73679a2, 0xa831c66d, 0xcde8037d, 0x14383d8e);
    v := Vars(0xcde8037d, v.a, v.b, v.c, 0x14383d8e, v.e, v.f, v.g);
    RoundIs(block, 26, v, 0xe5bc3909, 0xb00327c8, 0xb62ec4bc, 0xc74c6516);
    v := Vars(0xb62ec4bc, v.a, v.b, v.c, 0xc74c6516, v.e, v.f, v.g);
    RoundIs(block, 27, v, 0x32663c5b, 0xbf597fc7, 0x77d37528, 0xedffbff8);
    v := Vars(0x77d37528, v.a, v.b, v.c, 0xedffbff8, v.e, v.f, v.g);
    RoundIs(block, 28, v, 0x9d209d67, 0xc6e00bf3, 0x363482c9, 0x6112a3b7);
    v := Vars(0x363482c9, v.a, v.b, v.c, 0x6112a3b7, v.e, v.f, v.g);
    RoundIs(block, 29, v, 0xec8726cb, 0xd5a79147, 0xa0060b30, 0xade79437);
    v := Vars(0xa0060b30, v.a, v.b, v.c, 0xade79437, v.e, v.f, v.g);
    RoundIs(block, 30, v, 0x702138a4, 0x06ca6351, 0xea992a22, 0x0109ab3a);
    v := Vars(0xea992a22, v.a, v.b, v.c, 0x0109ab3a, v.e, v.f, v.g);
    RoundIs(block, 31, v, 0xd3b7973b, 0x14292967, 0x73b33bf5, 0xba591112);
  }

  lemma Rounds40(block: seq<Byte>)
    requires IsPadded(block)
    ensures Rounds(VarsOf(H0), block, 40) ==
            Vars(0x79ea687a, 0x6dc57a8a, 0x34df1604, 0x41a65cb1, 0x1efbc0a0, 0xf0781bc8, 0xa507a53d, 0x0772a26b)
  {
    Words32(block);
    Rounds32(block);
    var v := Vars(0x73b33bf5, 0xea992a22, 0xa0060b30, 0x363482c9, 0xba591112, 0x0109ab3a, 0xade79437, 0x6112a3b7);
    RoundIs(block, 32, v, 0x93f5997f, 0x27b70a85, 0x98e12507, 0x9cd9f5f6);
    v := Vars(0x98e12507, v.a, v.b, v.c, 0x9cd9f5f6, v.e, v.f, v.g);
    RoundIs(block, 33, v, 0x3b68ba73, 0x2e1b2138, 0xfe604df5, 0x59249dd3);
    v := Vars(0xfe604df5, v.a, v.b, v.c, 0x59249dd3, v.e, v.f, v.g);
    RoundIs(block, 34, v, 0xaff4ffc1, 0x4d2c6dfc, 0xa9a7738c, 0x085f3833);
    v := Vars(0xa9a7738c, v.a, v.b, v.c, 0x085f3833, v.e, v.f, v.g);
    RoundIs(block, 35, v, 0xf10a5c62, 0x53380d13, 0x65a0cfe4, 0xf4b002d6);
    v := Vars(0x65a0cfe4, v.a, v.b, v.c, 0xf4b002d6, v.e, v.f, v.g);
    RoundIs(block, 36, v, 0x0a8b3996, 0x650a7354, 0x41a65cb1, 0x0772a26b);
    v := Vars(0x41a65cb1, v.a, v.b, v.c, 0x0772a26b, v.e, v.f, v.g);
    RoundIs(block, 37, v, 0x72af830a, 0x766a0abb, 0x34df1604, 0xa507a53d);
    v := Vars(0x34df1604, v.a, v.b, v.c, 0xa507a53d, v.e, v.f, v.g);
    RoundIs(block, 38, v, 0x9409e33e, 0x81c2c92e, 0x6dc57a8a, 0xf0781bc8);
    v := Vars(0x6dc57a8a, v.a, v.b, v.c, 0xf0781bc8, v.e, v.f, v.g);
    RoundIs(block, 39, v, 0x24641522, 0x92722c85, 0x79ea687a, 0x1efbc0a0);
  }

  lemma Rounds48(block: seq<Byte>)
    requires IsPadded(block)
    ensures Rounds(VarsOf(H0), block, 48) ==
            Vars(0x4172328d, 0xa14c14b0, 0x72ab4b91, 0x26628815, 0xfecf0bc6, 0xd57b94a9, 0xb7755da1, 0xa80f11f0)
  {
    Words32(block);
    Rounds40(block);
    var v := Vars(0x79ea687a, 0x6dc57a8a, 0x34df1604, 0x41a65cb1, 0x1efbc0a0, 0xf0781bc8, 0xa507a53d, 0x0772a26b);
    RoundIs(block, 40, v, 0x9f47bf94, 0xa2bfe8a1, 0xd6670766, 0x26352d63);
    v := Vars(0xd6670766, v.a, v.b, v.c, 0x26352d63, v.e, v.f, v.g);
    RoundIs(block, 41, v, 0xf0a64f5a, 0xa81a664b, 0xdf46652f, 0x838b2711);
    v := Vars(0xdf46652f, v.a, v.b, v.c, 0x838b2711, v.e, v.f, v.g);
    RoundIs(block, 42, v, 0x3e246a79, 0xc24b8b70, 0x17aa0dfe, 0xdecd4715);
    v := Vars(0x17aa0dfe, v.a, v.b, v.c, 0xdecd4715, v.e, v.f, v.g);
    RoundIs(block, 43, v, 0x27333ba3, 0xc76c51a3, 0x9d4baf93, 0xfda24c2e);
    v := Vars(0x9d4baf93, v.a, v.b, v.c, 0xfda24c2e, v.e, v.f, v.g);
    RoundIs(block, 44, v, 0x0c4763f2, 0xd192e819, 0x26628815, 0xa80f11f0);
    v := Vars(0x26628815, v.a, v.b, v.c, 0xa80f11f0, v.e, v.f, v.g);
    RoundIs(block, 45, v, 0x840abf27, 0xd6990624, 0x72ab4b91, 0xb7755da1);
    v := Vars(0x72ab4b91, v.a, v.b, v.c, 0xb7755da1, v.e, v.f, v.g);
    RoundIs(block, 46, v, 0x7a290d5d, 0xf40e3585, 0xa14c14b0, 0xd57b94a9);
    v := Vars(0xa14c14b0, v.a, v.b, v.c, 0xd57b94a9, v.e, v.f, v.g);
    RoundIs(block, 47, v, 0x065c43da, 0x106aa070, 0x4172328d, 0xfecf0bc6);
  }

  lemma Rounds56(block: seq<Byte>)
    requires IsPadded(block)
    ensures Rounds(VarsOf(H0), block, 56) ==
            Vars(0x38cc9913, 0x3ec45cdb, 0xf5702fdb, 0x101fd28f, 0x54cb266b, 0xe50e1b4f, 0x9f4787c3, 0x529e7d00)
  {
    Words48(block);
    Rounds48(block);
    var v := Vars(0x4172328d, 0xa14c14b0, 0x72ab4b91, 0x26628815, 0xfecf0bc6, 0xd57b94a9, 0xb7755da1, 0xa80f11f0);
    RoundIs(block, 48, v, 0xfb3e89cb, 0x19a4c116, 0x05757ceb, 0xbd714038);
    v := Vars(0x05757ceb, v.a, v.b, v.c, 0xbd714038, v.e, v.f, v.g);
    RoundIs(block, 49, v, 0xcc7617db, 0x1e376c08, 0xf11bfaa8, 0x6e5c390c);
    v := Vars(0xf11bfaa8, v.a, v.b, v.c, 0x6e5c390c, v.e, v.f, v.g);
    RoundIs(block, 50, v, 0xb9e66c34, 0x2748774c, 0x7a0508a1, 0x52f1ccf7);
    v := Vars(0x7a0508a1, v.a, v.b, v.c, 0x52f1ccf7, v.e, v.f, v.g);
    RoundIs(block, 51, v, 0xa9993667, 0x34b0bcb5, 0x886e7a22, 0x49231c1e);
    v := Vars(0x886e7a22, v.a, v.b, v.c, 0x49231c1e, v.e, v.f, v.g);
    RoundIs(block, 52, v, 0x84badedd, 0x391c0cb3, 0x101fd28f, 0x529e7d00);
    v := Vars(0x101fd28f, v.a, v.b, v.c, 0x529e7d00, v.e, v.f, v.g);
    RoundIs(block, 53, v, 0xc21462bc, 0x4ed8aa4a, 0xf5702fdb, 0x9f4787c3);
    v := Vars(0xf5702fdb, v.a, v.b, v.c, 0x9f4787c3, v.e, v.f, v.g);
    RoundIs(block, 54, v, 0x1487472c, 0x5b9cca4f, 0x3ec45cdb, 0xe50e1b4f);
    v := Vars(0x3ec45cdb, v.a, v.b, v.c, 0xe50e1b4f, v.e, v.f, v.g);
    RoundIs(block, 55, v, 0xb20f7a99, 0x682e6ff3, 0x38cc9913, 0x54cb266b);
  }

  lemma Rounds64(block: seq<Byte>)
    requires IsPadded(block)
    ensures Rounds(VarsOf(H0), block, 64) ==
            Vars(0x506e3058, 0xd39a2165, 0x04d24d6c, 0xb85e2ce9, 0x5ef50f24, 0xfb121210, 0x948d25b6, 0x961f4894)
  {
    Words48(block);
    Rounds56(block);
    var v := Vars(0x38cc9913, 0x3ec45cdb, 0xf5702fdb, 0x101fd28f, 0x54cb266b, 0xe50e1b4f, 0x9f4787c3, 0x529e7d00);
    RoundIs(block, 56, v, 0xef57b9cd, 0x748f82ee, 0xfcd1887b, 0x9b5e906c);
    v := Vars(0xfcd1887b, v.a, v.b, v.c, 0x9b5e906c, v.e, v.f, v.g);
    RoundIs(block, 57, v, 0xebe6b238, 0x78a5636f, 0xc062d46f, 0x7e44008e);
    v := Vars(0xc062d46f, v.a, v.b, v.c, 0x7e44008e, v.e, v.f, v.g);
    RoundIs(block, 58, v, 0x9fe3095e, 0x84c87814, 0xffb70472, 0x6d83bfc6);
    v := Vars(0xffb70472, v.a, v.b, v.c, 0x6d83bfc6, v.e, v.f, v.g);
    RoundIs(block, 59, v, 0x78bc8d4b, 0x8cc70208, 0xb6ae8fff, 0xb21bad3d);
    v := Vars(0xb6ae8fff, v.a, v.b, v.c, 0xb21bad3d, v.e, v.f, v.g);
    RoundIs(block, 60, v, 0xa43fcf15, 0x90befffa, 0xb85e2ce9, 0x961f4894);
    v := Vars(0xb85e2ce9, v.a, v.b, v.c, 0x961f4894, v.e, v.f, v.g);
    RoundIs(block, 61, v, 0x668b2ff8, 0xa4506ceb, 0x04d24d6c, 0x948d25b6);
    v := Vars(0x04d24d6c, v.a, v.b, v.c, 0x948d25b6, v.e, v.f, v.g);
    RoundIs(block, 62, v, 0xeeaba2cc, 0xbef9a3f7, 0xd39a2165, 0xfb121210);
    v := Vars(0xd39a2165, v.a, v.b, v.c, 0xfb121210, v.e, v.f, v.g);
    RoundIs(block, 63, v, 0x12b1edeb, 0xc67178f2, 0x506e3058, 0x5ef50f24);
  }

  // ---- the digest ------------------------------------------------------------------

  lemma PadIsPadded()
    ensures IsPadded(Pad(ABC))
  {
    LengthIs();
    var zeros := Zeros(52);
    assert Pad(ABC) == ABC + [0x80] + zeros + BigEndian(24, 8);
    assert forall i :: 4 <= i < 56 ==> Pad(ABC)[i] == zeros[i - 4];
    assert forall i :: 56 <= i < 64 ==> Pad(ABC)[i] == BigEndian(24, 8)[i - 56];
  }

  lemma LengthIs()
    ensures BigEndian(24, 8)[7] == 24 && forall i :: 0 <= i < 7 ==> BigEndian(24, 8)[i] == 0
  {
    assert 24 / 256 == 0 && 24 % 256 == 24;
    forall i | 0 <= i < 7 ensures BigEndian(24, 8)[i] == 0 {
      ZeroBytes(7, i);
    }
  }

  lemma {:induction false} ZeroBytes(k: nat, i: nat)
    requires i < k
    ensures BigEndian(0, k)[i] == 0
  {
    if i < k - 1 {
      ZeroBytes(k - 1, i);
    }
  }

  lemma OneBlock(block: seq<Byte>)
    requires |block| == BLOCK
    ensures HashOf(block) == Step(H0, block)
  {
    FoldAppend(Step, H0, [], block);
    assert [] + block == block;
  }

  lemma HashIs(block: seq<Byte>)
    requires IsPadded(block)
    ensures Compress(H0, block) == [
      0xba7816bf, 0x8f01cfea, 0x414140de, 0x5dae2223, 0xb00361a3, 0x96177a9c, 0xb410ff61, 0xf20015ad]
  {
    Rounds64(block);
  }

  /** The digest that the standard gives for "abc", as words. */
  lemma DigestOfAbc()
    ensures Digest(ABC) == Bytes([
              0xba7816bf, 0x8f01cfea, 0x414140de, 0x5dae2223, 0xb00361a3, 0x96177a9c, 0xb410ff61, 0xf20015ad])
  {
    PadIsPadded();
    OneBlock(Pad(ABC));
    HashIs(Pad(ABC));
  }
}
