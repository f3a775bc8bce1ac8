/**
 * The known answer of self_test: the digest of "abc" by the definitions of `Fips180`. NIST publishes it as an example
 * for FIPS 180-4. Every constant and every function of the standard takes part in it.
 */
module KnownAnswer {
  import opened Base
  import opened Fips180
  import opened Worker

  const ABC: seq<byte> := [0x61, 0x62, 0x63]

  /** The block that "abc" is padded to: the text, a one bit, zeros, and the length in bits. */
  ghost predicate AbcBlock(b: seq<byte>) {
    && |b| == 64 && b[..4] == [0x61, 0x62, 0x63, 0x80] && b[63] == 0x18
    && forall i :: 4 <= i < 63 ==> b[i] == 0
  }

  lemma PaddedBlock()
    ensures |Pad(ABC)| == 64 && AbcBlock(Pad(ABC))
  {
    LengthOfAbc();
    hide LengthBytes;
    var head, zeros, length := ABC + [0x80], Zeros(52), LengthBytes(24);
    assert ZeroCount(3) == 52;
    assert Pad(ABC) == head + zeros + length;
  }

  lemma LengthOfAbc()
    ensures var l := LengthBytes(24); l[7] == 0x18 && forall i :: 0 <= i < 7 ==> l[i] == 0
  {
    forall i: nat | i < 7 ensures LengthBytes(24)[i] == 0 {
      NoByte(6 - i);
    }
  }

  lemma {:induction false} NoByte(i: nat)
    ensures ByteOf(0, i) == 0
  {
    if i > 0 {
      NoByte(i - 1);
    }
  }

  /** The rotations of the standard, as shifts by constants. */
  lemma Rotations(x: word)
    ensures RotR(x, 2) == (x >> 2) | (x << 30) && RotR(x, 6) == (x >> 6) | (x << 26)
    ensures RotR(x, 7) == (x >> 7) | (x << 25) && RotR(x, 11) == (x >> 11) | (x << 21)
    ensures RotR(x, 13) == (x >> 13) | (x << 19) && RotR(x, 17) == (x >> 17) | (x << 15)
    ensures RotR(x, 18) == (x >> 18) | (x << 14) && RotR(x, 19) == (x >> 19) | (x << 13)
    ensures RotR(x, 22) == (x >> 22) | (x << 10) && RotR(x, 25) == (x >> 25) | (x << 7)
  {
    assert RotR(x, 2) == (x >> 2) | (x << 30);
    assert RotR(x, 6) == (x >> 6) | (x << 26);
    assert RotR(x, 7) == (x >> 7) | (x << 25);
    assert RotR(x, 11) == (x >> 11) | (x << 21);
    assert RotR(x, 13) == (x >> 13) | (x << 19);
    assert RotR(x, 17) == (x >> 17) | (x << 15);
    assert RotR(x, 18) == (x >> 18) | (x << 14);
    assert RotR(x, 19) == (x >> 19) | (x << 13);
    assert RotR(x, 22) == (x >> 22) | (x << 10);
    assert RotR(x, 25) == (x >> 25) | (x << 7);
  }

  // ---------- the message schedule ----------

  /** Four bytes as a word, the first one most significant. */
  function Four(a: byte, b: byte, c: byte, d: byte): word {
    ((a as word) << 24) | ((b as word) << 16) | ((c as word) << 8) | (d as word)
  }

  lemma LoadsFour(block: seq<byte>, at: nat, a: byte, b: byte, c: byte, d: byte)
    requires at + 4 <= |block| && block[at..at + 4] == [a, b, c, d]
    ensures LoadBe(block, at) == Four(a, b, c, d)
  {
    var four := block[at..at + 4];
    assert block[at] == four[0] && block[at + 1] == four[1];
    assert block[at + 2] == four[2] && block[at + 3] == four[3];
  }

  /** Word `t` of the schedule of a block. */
  predicate Word(b: seq<byte>, t: nat, w: word) {
    |b| == 64 && t < 64 && W(b, t) == w
  }

  lemma FirstWords(b: seq<byte>)
    requires AbcBlock(b)
    ensures Word(b, 0, 0x61626380) && Word(b, 15, 0x18) && forall t :: 0 < t < 15 ==> Word(b, t, 0)
  {
    assert Four(0x61, 0x62, 0x63, 0x80) == 0x61626380;
    assert Four(0, 0, 0, 0) == 0;
    assert Four(0, 0, 0, 0x18) == 0x18;
    hide Four, LoadBe;
    assert b[0..4] == b[..4];
    LoadsFour(b, 0, 0x61, 0x62, 0x63, 0x80);
    LoadsFour(b, 60, 0, 0, 0, 0x18);
    forall t | 0 < t < 15 ensures Word(b, t, 0) {
      LoadsFour(b, 4 * t, 0, 0, 0, 0);
    }
  }

  /** One more word of the schedule, from the four it depends on. */
  lemma NextWord(b: seq<byte>, t: nat, p: word, q: word, r: word, s: word)
    requires 16 <= t < 64 && Word(b, t - 2, p) && Word(b, t - 7, q) && Word(b, t - 15, r) && Word(b, t - 16, s)
    ensures Word(b, t, Sum4(SmallSigma1(p), q, SmallSigma0(r), s))
    ensures RotR(p, 17) == (p >> 17) | (p << 15) && RotR(p, 19) == (p >> 19) | (p << 13)
    ensures RotR(r, 7) == (r >> 7) | (r << 25) && RotR(r, 18) == (r >> 18) | (r << 14)
  {
    Rotations(p);
    Rotations(r);
    hide RotR, Sum4, SmallSigma0, SmallSigma1;
  }

  lemma Words16(b: seq<byte>)
    requires AbcBlock(b)
    ensures Word(b, 16, 0x61626380) && Word(b, 17, 0x000f0000) && Word(b, 18, 0x7da86405) && Word(b, 19, 0x600003c6)
    ensures Word(b, 20, 0x3e9d7b78) && Word(b, 21, 0x0183fc00) && Word(b, 22, 0x12dcbfdb) && Word(b, 23, 0xe2e2c38e)
  {
    hide RotR, Word, AbcBlock;
    FirstWords(b);
    NextWord(b, 16, 0x00000000, 0x00000000, 0x00000000, 0x61626380);
    NextWord(b, 17, 0x00000018, 0x00000000, 0x00000000, 0x00000000);
    NextWord(b, 18, 0x61626380, 0x00000000, 0x00000000, 0x00000000);
    NextWord(b, 19, 0x000f0000, 0x00000000, 0x00000000, 0x00000000);
    NextWord(b, 20, 0x7da86405, 0x00000000, 0x00000000, 0x00000000);
    NextWord(b, 21, 0x600003c6, 0x00000000, 0x00000000, 0x00000000);
    NextWord(b, 22, 0x3e9d7b78, 0x00000018, 0x00000000, 0x00000000);
    NextWord(b, 23, 0x0183fc00, 0x61626380, 0x00000000, 0x00000000);
  }

  lemma Words24(b: seq<byte>)
    requires AbcBlock(b)
    ensures Word(b, 24, 0xc8215c1a) && Word(b, 25, 0xb73679a2) && Word(b, 26, 0xe5bc3909) && Word(b, 27, 0x32663c5b)
    ensures Word(b, 28, 0x9d209d67) && Word(b, 29, 0xec8726cb) && Word(b, 30, 0x702138a4) && Word(b, 31, 0xd3b7973b)
  {
    hide RotR, Word, AbcBlock;
    FirstWords(b);
    Words16(b);
    NextWord(b, 24, 0x12dcbfdb, 0x000f0000, 0x00000000, 0x00000000);
    NextWord(b, 25, 0xe2e2c38e, 0x7da86405, 0x00000000, 0x00000000);
    NextWord(b, 26, 0xc8215c1a, 0x600003c6, 0x00000000, 0x00000000);
    NextWord(b, 27, 0xb73679a2, 0x3e9d7b78, 0x00000000, 0x00000000);
    NextWord(b, 28, 0xe5bc3909, 0x0183fc00, 0x00000000, 0x00000000);
    NextWord(b, 29, 0x32663c5b, 0x12dcbfdb, 0x00000000, 0x00000000);
    NextWord(b, 30, 0x9d209d67, 0xe2e2c38e, 0x00000018, 0x00000000);
    NextWord(b, 31, 0xec8726cb, 0xc8215c1a, 0x61626380, 0x00000018);
  }

  lemma Words32(b: seq<byte>)
    requires AbcBlock(b)
    ensures Word(b, 32, 0x93f5997f) && Word(b, 33, 0x3b68ba73) && Word(b, 34, 0xaff4ffc1) && Word(b, 35, 0xf10a5c62)
    ensures Word(b, 36, 0x0a8b3996) && Word(b, 37, 0x72af830a) && Word(b, 38, 0x9409e33e) && Word(b, 39, 0x24641522)
  {
    hide RotR, Word, AbcBlock;
    FirstWords(b);
    Words16(b);
    Words24(b);
    NextWord(b, 32, 0x702138a4, 0xb73679a2, 0x000f0000, 0x61626380);
    NextWord(b, 33, 0xd3b7973b, 0xe5bc3909, 0x7da86405, 0x000f0000);
    NextWord(b, 34, 0x93f5997f, 0x32663c5b, 0x600003c6, 0x7da86405);
    NextWord(b, 35, 0x3b68ba73, 0x9d209d67, 0x3e9d7b78, 0x600003c6);
    NextWord(b, 36, 0xaff4ffc1, 0xec8726cb, 0x0183fc00, 0x3e9d7b78);
    NextWord(b, 37, 0xf10a5c62, 0x702138a4, 0x12dcbfdb, 0x0183fc00);
    NextWord(b, 38, 0x0a8b3996, 0xd3b7973b, 0xe2e2c38e, 0x12dcbfdb);
    NextWord(b, 39, 0x72af830a, 0x93f5997f, 0xc8215c1a, 0xe2e2c38e);
  }

  lemma Words40(b: seq<byte>)
    requires AbcBlock(b)
    ensures Word(b, 40, 0x9f47bf94) && Word(b, 41, 0xf0a64f5a) && Word(b, 42, 0x3e246a79) && Word(b, 43, 0x27333ba3)
    ensures Word(b, 44, 0x0c4763f2) && Word(b, 45, 0x840abf27) && Word(b, 46, 0x7a290d5d) && Word(b, 47, 0x065c43da)
  {
    hide RotR, Word, AbcBlock;
    FirstWords(b);
    Words24(b);
    Words32(b);
    NextWord(b, 40, 0x9409e33e, 0x3b68ba73, 0xb73679a2, 0xc8215c1a);
    NextWord(b, 41, 0x24641522, 0xaff4ffc1, 0xe5bc3909, 0xb73679a2);
    NextWord(b, 42, 0x9f47bf94, 0xf10a5c62, 0x32663c5b, 0xe5bc3909);
    NextWord(b, 43, 0xf0a64f5a, 0x0a8b3996, 0x9d209d67, 0x32663c5b);
    NextWord(b, 44, 0x3e246a79, 0x72af830a, 0xec8726cb, 0x9d209d67);
    NextWord(b, 45, 0x27333ba3, 0x9409e33e, 0x702138a4, 0xec8726cb);
    NextWord(b, 46, 0x0c4763f2, 0x24641522, 0xd3b7973b, 0x702138a4);
    NextWord(b, 47, 0x840abf27, 0x9f47bf94, 0x93f5997f, 0xd3b7973b);
  }

  lemma Words48(b: seq<byte>)
    requires AbcBlock(b)
    ensures Word(b, 48, 0xfb3e89cb) && Word(b, 49, 0xcc7617db) && Word(b, 50, 0xb9e66c34) && Word(b, 51, 0xa9993667)
    ensures Word(b, 52, 0x84badedd) && Word(b, 53, 0xc21462bc) && Word(b, 54, 0x1487472c) && Word(b, 55, 0xb20f7a99)
  {
    hide RotR, Word, AbcBlock;
    FirstWords(b);
    Words32(b);
    Words40(b);
    NextWord(b, 48, 0x7a290d5d, 0xf0a64f5a, 0x3b68ba73, 0x93f5997f);
    NextWord(b, 49, 0x065c43da, 0x3e246a79, 0xaff4ffc1, 0x3b68ba73);
    NextWord(b, 50, 0xfb3e89cb, 0x27333ba3, 0xf10a5c62, 0xaff4ffc1);
    NextWord(b, 51, 0xcc7617db, 0x0c4763f2, 0x0a8b3996, 0xf10a5c62);
    NextWord(b, 52, 0xb9e66c34, 0x840abf27, 0x72af830a, 0x0a8b3996);
    NextWord(b, 53, 0xa9993667, 0x7a290d5d, 0x9409e33e, 0x72af830a);
    NextWord(b, 54, 0x84badedd, 0x065c43da, 0x24641522, 0x9409e33e);
    NextWord(b, 55, 0xc21462bc, 0xfb3e89cb, 0x9f47bf94, 0x24641522);
  }

  lemma Words56(b: seq<byte>)
    requires AbcBlock(b)
    ensures Word(b, 56, 0xef57b9cd) && Word(b, 57, 0xebe6b238) && Word(b, 58, 0x9fe3095e) && Word(b, 59, 0x78bc8d4b)
    ensures Word(b, 60, 0xa43fcf15) && Word(b, 61, 0x668b2ff8) && Word(b, 62, 0xeeaba2cc) && Word(b, 63, 0x12b1edeb)
  {
    hide RotR, Word, AbcBlock;
    FirstWords(b);
    Words40(b);
    Words48(b);
    NextWord(b, 56, 0x1487472c, 0xcc7617db, 0xf0a64f5a, 0x9f47bf94);
    NextWord(b, 57, 0xb20f7a99, 0xb9e66c34, 0x3e246a79, 0xf0a64f5a);
    NextWord(b, 58, 0xef57b9cd, 0xa9993667, 0x27333ba3, 0x3e246a79);
    NextWord(b, 59, 0xebe6b238, 0x84badedd, 0x0c4763f2, 0x27333ba3);
    NextWord(b, 60, 0x9fe3095e, 0xc21462bc, 0x840abf27, 0x0c4763f2);
    NextWord(b, 61, 0x78bc8d4b, 0x1487472c, 0x7a290d5d, 0x840abf27);
    NextWord(b, 62, 0xa43fcf15, 0xb20f7a99, 0x065c43da, 0x7a290d5d);
    NextWord(b, 63, 0x668b2ff8, 0xef57b9cd, 0xfb3e89cb, 0x065c43da);
  }

  // ---------- the rounds ----------

  /** The working variables after `t` rounds. */
  predicate Now(b: seq<byte>, t: nat, v: Vars) {
    |b| == 64 && t <= 64 && Rounds(H0(), b, t) == v
  }

  /** One more round. */
  lemma NextRound(b: seq<byte>, t: nat, v: Vars, k: word, w: word) returns (next: Vars)
    requires t < 64 && Now(b, t, v) && K(t) == k && Word(b, t, w)
    ensures next == Round(v, k, w) && Now(b, t + 1, next)
    ensures RotR(v.e, 6) == (v.e >> 6) | (v.e << 26) && RotR(v.e, 11) == (v.e >> 11) | (v.e << 21)
    ensures RotR(v.e, 25) == (v.e >> 25) | (v.e << 7)
    ensures RotR(v.a, 2) == (v.a >> 2) | (v.a << 30) && RotR(v.a, 13) == (v.a >> 13) | (v.a << 19)
    ensures RotR(v.a, 22) == (v.a >> 22) | (v.a << 10)
  {
    Rotations(v.a);
    Rotations(v.e);
    hide RotR, Round, W;
    next := Round(v, k, w);
  }

  lemma Rounds8(b: seq<byte>)
    requires AbcBlock(b)
    ensures Now(b, 8, Vars(0x85a07b5f, 0xe5030380, 0x2b4209f5, 0x04409a6a,
                           0x0c657a79, 0x9b27a401, 0x714260ad, 0x43ada245))
  {
    hide RotR, Word, Now, AbcBlock;
    StartOfRounds(b);
    FirstWords(b);
    var v := Vars(0x6a09e667, 0xbb67ae85, 0x3c6ef372, 0xa54ff53a,
                  0x510e527f, 0x9b05688c, 0x1f83d9ab, 0x5be0cd19);
    v := NextRound(b, 0, v, 0x428a2f98, 0x61626380);
    assert v.a == 0x5d6aebcd && v.e == 0xfa2a4622;
    v := NextRound(b, 1, v, 0x71374491, 0x00000000);
    assert v.a == 0x5a6ad9ad && v.e == 0x78ce7989;
    v := NextRound(b, 2, v, 0xb5c0fbcf, 0x00000000);
    assert v.a == 0xc8c347a7 && v.e == 0xf92939eb;
    v := NextRound(b, 3, v, 0xe9b5dba5, 0x00000000);
    assert v.a == 0xd550f666 && v.e == 0x24e00850;
    v := NextRound(b, 4, v, 0x3956c25b, 0x00000000);
    assert v.a == 0x04409a6a && v.e == 0x43ada245;
    v := NextRound(b, 5, v, 0x59f111f1, 0x00000000);
    assert v.a == 0x2b4209f5 && v.e == 0x714260ad;
    v := NextRound(b, 6, v, 0x923f82a4, 0x00000000);
    assert v.a == 0xe5030380 && v.e == 0x9b27a401;
    v := NextRound(b, 7, v, 0xab1c5ed5, 0x00000000);
    assert v.a == 0x85a07b5f && v.e == 0x0c657a79;
  }

  lemma Rounds16(b: seq<byte>)
    requires AbcBlock(b)
    ensures Now(b, 16, Vars(0xb0fa238e, 0xc0645fde, 0xd932eb16, 0x87912990,
                            0x07590dcd, 0x0b92f20c, 0x745a48de, 0x1e578218))
  {
    hide RotR, Word, Now, AbcBlock;
    Rounds8(b);
    FirstWords(b);
    var v := Vars(0x85a07b5f, 0xe5030380, 0x2b4209f5, 0x04409a6a,
                  0x0c657a79, 0x9b27a401, 0x714260ad, 0x43ada245);
    v := NextRound(b, 8, v, 0xd807aa98, 0x00000000);
    assert v.a == 0x8e04ecb9 && v.e == 0x32ca2d8c;
    v := NextRound(b, 9, v, 0x12835b01, 0x00000000);
    assert v.a == 0x8c87346b && v.e == 0x1cc92596;
    v := NextRound(b, 10, v, 0x243185be, 0x00000000);
    assert v.a == 0x4798a3f4 && v.e == 0x436b23e8;
    v := NextRound(b, 11, v, 0x550c7dc3, 0x00000000);
    assert v.a == 0xf71fc5a9 && v.e == 0x816fd6e9;
    v := NextRound(b, 12, v, 0x72be5d74, 0x00000000);
    assert v.a == 0x87912990 && v.e == 0x1e578218;
    v := NextRound(b, 13, v, 0x80deb1fe, 0x00000000);
    assert v.a == 0xd932eb16 && v.e == 0x745a48de;
    v := NextRound(b, 14, v, 0x9bdc06a7, 0x00000000);
    assert v.a == 0xc0645fde && v.e == 0x0b92f20c;
    v := NextRound(b, 15, v, 0xc19bf174, 0x00000018);
    assert v.a == 0xb0fa238e && v.e == 0x07590dcd;
  }

  lemma Rounds24(b: seq<byte>)
    requires AbcBlock(b)
    ensures Now(b, 24, Vars(0xc5d53d8d, 0xa7a3623f, 0xc2606d6d, 0x9dc68b63,
                            0xaa47c347, 0x49f5114a, 0xe1257970, 0x8ada8930))
  {
    hide RotR, Word, Now, AbcBlock;
    Rounds16(b);
    Words16(b);
    var v := Vars(0xb0fa238e, 0xc0645fde, 0xd932eb16, 0x87912990,
                  0x07590dcd, 0x0b92f20c, 0x745a48de, 0x1e578218);
    v := NextRound(b, 16, v, 0xe49b69c1, 0x61626380);
    assert v.a == 0x21da9a9b && v.e == 0x8034229c;
    v := NextRound(b, 17, v, 0xefbe4786, 0x000f0000);
    assert v.a == 0xc2fbd9d1 && v.e == 0x846ee454;
    v := NextRound(b, 18, v, 0x0fc19dc6, 0x7da86405);
    assert v.a == 0xfe777bbf && v.e == 0xcc899961;
    v := NextRound(b, 19, v, 0x240ca1cc, 0x600003c6);
    assert v.a == 0xe1f20c33 && v.e == 0xb0638179;
    v := NextRound(b, 20, v, 0x2de92c6f, 0x3e9d7b78);
    assert v.a == 0x9dc68b63 && v.e == 0x8ada8930;
    v := NextRound(b, 21, v, 0x4a7484aa, 0x0183fc00);
    assert v.a == 0xc2606d6d && v.e == 0xe1257970;
    v := NextRound(b, 22, v, 0x5cb0a9dc, 0x12dcbfdb);
    assert v.a == 0xa7a3623f && v.e == 0x49f5114a;
    v := NextRound(b, 23, v, 0x76f988da, 0xe2e2c38e);
    assert v.a == 0xc5d53d8d && v.e == 0xaa47c347;
  }

  lemma Rounds32(b: seq<byte>)
    requires AbcBlock(b)
    ensures Now(b, 32, Vars(0x73b33bf5, 0xea992a22, 0xa0060b30, 0x363482c9,
                            0xba591112, 0x0109ab3a, 0xade79437, 0x6112a3b7))
  {
    hide RotR, Word, Now, AbcBlock;
    Rounds24(b);
    Words24(b);
    var v := Vars(0xc5d53d8d, 0xa7a3623f, 0xc2606d6d, 0x9dc68b63,
                  0xaa47c347, 0x49f5114a, 0xe1257970, 0x8ada8930);
    v := NextRound(b, 24, v, 0x983e5152, 0xc8215c1a);
    assert v.a == 0x1c2c2838 && v.e == 0x2823ef91;
    v := NextRound(b, 25, v, 0xa831c66d, 0xb73679a2);
    assert v.a == 0xcde8037d && v.e == 0x14383d8e;
    v := NextRound(b, 26, v, 0xb00327c8, 0xe5bc3909);
    assert v.a == 0xb62ec4bc && v.e == 0xc74c6516;
    v := NextRound(b, 27, v, 0xbf597fc7, 0x32663c5b);
    assert v.a == 0x77d37528 && v.e == 0xedffbff8;
    v := NextRound(b, 28, v, 0xc6e00bf3, 0x9d209d67);
    assert v.a == 0x363482c9 && v.e == 0x6112a3b7;
    v := NextRound(b, 29, v, 0xd5a79147, 0xec8726cb);
    assert v.a == 0xa0060b30 && v.e == 0xade79437;
    v := NextRound(b, 30, v, 0x06ca6351, 0x702138a4);
    assert v.a == 0xea992a22 && v.e == 0x0109ab3a;
    v := NextRound(b, 31, v, 0x14292967, 0xd3b7973b);
    assert v.a == 0x73b33bf5 && v.e == 0xba591112;
  }

  lemma Rounds40(b: seq<byte>)
    requires AbcBlock(b)
    ensures Now(b, 40, Vars(0x79ea687a, 0x6dc57a8a, 0x34df1604, 0x41a65cb1,
                            0x1efbc0a0, 0xf0781bc8, 0xa507a53d, 0x0772a26b))
  {
    hide RotR, Word, Now, AbcBlock;
    Rounds32(b);
    Words32(b);
    var v := Vars(0x73b33bf5, 0xea992a22, 0xa0060b30, 0x363482c9,
                  0xba591112, 0x0109ab3a, 0xade79437, 0x6112a3b7);
    v := NextRound(b, 32, v, 0x27b70a85, 0x93f5997f);
    assert v.a == 0x98e12507 && v.e == 0x9cd9f5f6;
    v := NextRound(b, 33, v, 0x2e1b2138, 0x3b68ba73);
    assert v.a == 0xfe604df5 && v.e == 0x59249dd3;
    v := NextRound(b, 34, v, 0x4d2c6dfc, 0xaff4ffc1);
    assert v.a == 0xa9a7738c && v.e == 0x085f3833;
    v := NextRound(b, 35, v, 0x53380d13, 0xf10a5c62);
    assert v.a == 0x65a0cfe4 && v.e == 0xf4b002d6;
    v := NextRound(b, 36, v, 0x650a7354, 0x0a8b3996);
    assert v.a == 0x41a65cb1 && v.e == 0x0772a26b;
    v := NextRound(b, 37, v, 0x766a0abb, 0x72af830a);
    assert v.a == 0x34df1604 && v.e == 0xa507a53d;
    v := NextRound(b, 38, v, 0x81c2c92e, 0x9409e33e);
    assert v.a == 0x6dc57a8a && v.e == 0xf0781bc8;
    v := NextRound(b, 39, v, 0x92722c85, 0x24641522);
    assert v.a == 0x79ea687a && v.e == 0x1efbc0a0;
  }

  lemma Rounds48(b: seq<byte>)
    requires AbcBlock(b)
    ensures Now(b, 48, Vars(0x4172328d, 0xa14c14b0, 0x72ab4b91, 0x26628815,
                            0xfecf0bc6, 0xd57b94a9, 0xb7755da1, 0xa80f11f0))
  {
    hide RotR, Word, Now, AbcBlock;
    Rounds40(b);
    Words40(b);
    var v := Vars(0x79ea687a, 0x6dc57a8a, 0x34df1604, 0x41a65cb1,
                  0x1efbc0a0, 0xf0781bc8, 0xa507a53d, 0x0772a26b);
    v := NextRound(b, 40, v, 0xa2bfe8a1, 0x9f47bf94);
    assert v.a == 0xd6670766 && v.e == 0x26352d63;
    v := NextRound(b, 41, v, 0xa81a664b, 0xf0a64f5a);
    assert v.a == 0xdf46652f && v.e == 0x838b2711;
    v := NextRound(b, 42, v, 0xc24b8b70, 0x3e246a79);
    assert v.a == 0x17aa0dfe && v.e == 0xdecd4715;
    v := NextRound(b, 43, v, 0xc76c51a3, 0x27333ba3);
    assert v.a == 0x9d4baf93 && v.e == 0xfda24c2e;
    v := NextRound(b, 44, v, 0xd192e819, 0x0c4763f2);
    assert v.a == 0x26628815 && v.e == 0xa80f11f0;
    v := NextRound(b, 45, v, 0xd6990624, 0x840abf27);
    assert v.a == 0x72ab4b91 && v.e == 0xb7755da1;
    v := NextRound(b, 46, v, 0xf40e3585, 0x7a290d5d);
    assert v.a == 0xa14c14b0 && v.e == 0xd57b94a9;
    v := NextRound(b, 47, v, 0x106aa070, 0x065c43da);
    assert v.a == 0x4172328d && v.e == 0xfecf0bc6;
  }

  lemma Rounds56(b: seq<byte>)
    requires AbcBlock(b)
    ensures Now(b, 56, Vars(0x38cc9913, 0x3ec45cdb, 0xf5702fdb, 0x101fd28f,
                            0x54cb266b, 0xe50e1b4f, 0x9f4787c3, 0x529e7d00))
  {
    hide RotR, Word, Now, AbcBlock;
    Rounds48(b);
    Words48(b);
    var v := Vars(0x4172328d, 0xa14c14b0, 0x72ab4b91, 0x26628815,
                  0xfecf0bc6, 0xd57b94a9, 0xb7755da1, 0xa80f11f0);
    v := NextRound(b, 48, v, 0x19a4c116, 0xfb3e89cb);
    assert v.a == 0x05757ceb && v.e == 0xbd714038;
    v := NextRound(b, 49, v, 0x1e376c08, 0xcc7617db);
    assert v.a == 0xf11bfaa8 && v.e == 0x6e5c390c;
    v := NextRound(b, 50, v, 0x2748774c, 0xb9e66c34);
    assert v.a == 0x7a0508a1 && v.e == 0x52f1ccf7;
    v := NextRound(b, 51, v, 0x34b0bcb5, 0xa9993667);
    assert v.a == 0x886e7a22 && v.e == 0x49231c1e;
    v := NextRound(b, 52, v, 0x391c0cb3, 0x84badedd);
    assert v.a == 0x101fd28f && v.e == 0x529e7d00;
    v := NextRound(b, 53, v, 0x4ed8aa4a, 0xc21462bc);
    assert v.a == 0xf5702fdb && v.e == 0x9f4787c3;
    v := NextRound(b, 54, v, 0x5b9cca4f, 0x1487472c);
    assert v.a == 0x3ec45cdb && v.e == 0xe50e1b4f;
    v := NextRound(b, 55, v, 0x682e6ff3, 0xb20f7a99);
    assert v.a == 0x38cc9913 && v.e == 0x54cb266b;
  }

  lemma Rounds64(b: seq<byte>)
    requires AbcBlock(b)
    ensures Now(b, 64, Vars(0x506e3058, 0xd39a2165, 0x04d24d6c, 0xb85e2ce9,
                            0x5ef50f24, 0xfb121210, 0x948d25b6, 0x961f4894))
  {
    hide RotR, Word, Now, AbcBlock;
    Rounds56(b);
    Words56(b);
    var v := Vars(0x38cc9913, 0x3ec45cdb, 0xf5702fdb, 0x101fd28f,
                  0x54cb266b, 0xe50e1b4f, 0x9f4787c3, 0x529e7d00);
    v := NextRound(b, 56, v, 0x748f82ee, 0xef57b9cd);
    assert v.a == 0xfcd1887b && v.e == 0x9b5e906c;
    v := NextRound(b, 57, v, 0x78a5636f, 0xebe6b238);
    assert v.a == 0xc062d46f && v.e == 0x7e44008e;
    v := NextRound(b, 58, v, 0x84c87814, 0x9fe3095e);
    assert v.a == 0xffb70472 && v.e == 0x6d83bfc6;
    v := NextRound(b, 59, v, 0x8cc70208, 0x78bc8d4b);
    assert v.a == 0xb6ae8fff && v.e == 0xb21bad3d;
    v := NextRound(b, 60, v, 0x90befffa, 0xa43fcf15);
    assert v.a == 0xb85e2ce9 && v.e == 0x961f4894;
    v := NextRound(b, 61, v, 0xa4506ceb, 0x668b2ff8);
    assert v.a == 0x04d24d6c && v.e == 0x948d25b6;
    v := NextRound(b, 62, v, 0xbef9a3f7, 0xeeaba2cc);
    assert v.a == 0xd39a2165 && v.e == 0xfb121210;
    v := NextRound(b, 63, v, 0xc67178f2, 0x12b1edeb);
    assert v.a == 0x506e3058 && v.e == 0x5ef50f24;
  }

  lemma StartOfRounds(b: seq<byte>)
    requires AbcBlock(b)
    ensures Now(b, 0, Vars(0x6a09e667, 0xbb67ae85, 0x3c6ef372, 0xa54ff53a,
                           0x510e527f, 0x9b05688c, 0x1f83d9ab, 0x5be0cd19))
  {
  }

  // ---------- the digest ----------

  lemma AbcHash(b: seq<byte>)
    requires AbcBlock(b)
    ensures Compress(H0(), b) == [
      0xba7816bf, 0x8f01cfea, 0x414140de, 0x5dae2223,
      0xb00361a3, 0x96177a9c, 0xb410ff61, 0xf20015ad]
  {
    Rounds64(b);
    hide Rounds;
  }

  lemma FirstBytes()
    ensures WordByte(0xba7816bf, 0) == 0xba && WordByte(0xba7816bf, 1) == 0x78
    ensures WordByte(0xba7816bf, 2) == 0x16 && WordByte(0xba7816bf, 3) == 0xbf
    ensures WordByte(0x8f01cfea, 0) == 0x8f && WordByte(0x8f01cfea, 1) == 0x01
    ensures WordByte(0x8f01cfea, 2) == 0xcf && WordByte(0x8f01cfea, 3) == 0xea
    ensures WordByte(0x414140de, 0) == 0x41 && WordByte(0x414140de, 1) == 0x41
    ensures WordByte(0x414140de, 2) == 0x40 && WordByte(0x414140de, 3) == 0xde
    ensures WordByte(0x5dae2223, 0) == 0x5d && WordByte(0x5dae2223, 1) == 0xae
    ensures WordByte(0x5dae2223, 2) == 0x22 && WordByte(0x5dae2223, 3) == 0x23
  {
    assert WordByte(0xba7816bf, 0) == 0xba && WordByte(0xba7816bf, 1) == 0x78;
    assert WordByte(0xba7816bf, 2) == 0x16 && WordByte(0xba7816bf, 3) == 0xbf;
    assert WordByte(0x8f01cfea, 0) == 0x8f && WordByte(0x8f01cfea, 1) == 0x01;
    assert WordByte(0x8f01cfea, 2) == 0xcf && WordByte(0x8f01cfea, 3) == 0xea;
    assert WordByte(0x414140de, 0) == 0x41 && WordByte(0x414140de, 1) == 0x41;
    assert WordByte(0x414140de, 2) == 0x40 && WordByte(0x414140de, 3) == 0xde;
    assert WordByte(0x5dae2223, 0) == 0x5d && WordByte(0x5dae2223, 1) == 0xae;
    assert WordByte(0x5dae2223, 2) == 0x22 && WordByte(0x5dae2223, 3) == 0x23;
  }

  lemma LastBytes()
    ensures WordByte(0xb00361a3, 0) == 0xb0 && WordByte(0xb00361a3, 1) == 0x03
    ensures WordByte(0xb00361a3, 2) == 0x61 && WordByte(0xb00361a3, 3) == 0xa3
    ensures WordByte(0x96177a9c, 0) == 0x96 && WordByte(0x96177a9c, 1) == 0x17
    ensures WordByte(0x96177a9c, 2) == 0x7a && WordByte(0x96177a9c, 3) == 0x9c
    ensures WordByte(0xb410ff61, 0) == 0xb4 && WordByte(0xb410ff61, 1) == 0x10
    ensures WordByte(0xb410ff61, 2) == 0xff && WordByte(0xb410ff61, 3) == 0x61
    ensures WordByte(0xf20015ad, 0) == 0xf2 && WordByte(0xf20015ad, 1) == 0x00
    ensures WordByte(0xf20015ad, 2) == 0x15 && WordByte(0xf20015ad, 3) == 0xad
  {
    assert WordByte(0xb00361a3, 0) == 0xb0 && WordByte(0xb00361a3, 1) == 0x03;
    assert WordByte(0xb00361a3, 2) == 0x61 && WordByte(0xb00361a3, 3) == 0xa3;
    assert WordByte(0x96177a9c, 0) == 0x96 && WordByte(0x96177a9c, 1) == 0x17;
    assert WordByte(0x96177a9c, 2) == 0x7a && WordByte(0x96177a9c, 3) == 0x9c;
    assert WordByte(0xb410ff61, 0) == 0xb4 && WordByte(0xb410ff61, 1) == 0x10;
    assert WordByte(0xb410ff61, 2) == 0xff && WordByte(0xb410ff61, 3) == 0x61;
    assert WordByte(0xf20015ad, 0) == 0xf2 && WordByte(0xf20015ad, 1) == 0x00;
    assert WordByte(0xf20015ad, 2) == 0x15 && WordByte(0xf20015ad, 3) == 0xad;
  }

  /** The published digest. */
  lemma AbcDigest()
    ensures Digest(ABC) == [
      0xba, 0x78, 0x16, 0xbf, 0x8f, 0x01, 0xcf, 0xea, 0x41, 0x41, 0x40, 0xde, 0x5d, 0xae, 0x22, 0x23,
      0xb0, 0x03, 0x61, 0xa3, 0x96, 0x17, 0x7a, 0x9c, 0xb4, 0x10, 0xff, 0x61, 0xf2, 0x00, 0x15, 0xad]
  {
    hide Pad, Compress, AbcBlock, DigestBytes, Chain;
    PaddedBlock();
    var b := Pad(ABC);
    AbcHash(b);
    OneBlock(b);
    AbcPieces(Compress(H0(), b));
  }

  /** Bytes `4 * i` to `4 * i + 3` are those of word `i`. */
  predicate Piece(h: seq<word>, bytes: seq<byte>, i: nat) {
    && |h| == 8 && |bytes| == 32 && i < 8
    && bytes[4 * i] == WordByte(h[i], 0) && bytes[4 * i + 1] == WordByte(h[i], 1)
    && bytes[4 * i + 2] == WordByte(h[i], 2) && bytes[4 * i + 3] == WordByte(h[i], 3)
  }

  lemma Pieces(h: seq<word>, bytes: seq<byte>)
    requires |h| == 8 && |bytes| == 32 && forall i :: 0 <= i < 8 ==> Piece(h, bytes, i)
    ensures DigestBytes(h) == bytes
  {
    hide WordByte;
    forall k | 0 <= k < 32 ensures DigestBytes(h)[k] == bytes[k] {
      assert Piece(h, bytes, k / 4);
    }
  }

  lemma AbcPieces(h: seq<word>)
    requires h == [
      0xba7816bf, 0x8f01cfea, 0x414140de, 0x5dae2223,
      0xb00361a3, 0x96177a9c, 0xb410ff61, 0xf20015ad]
    ensures DigestBytes(h) == [
      0xba, 0x78, 0x16, 0xbf, 0x8f, 0x01, 0xcf, 0xea, 0x41, 0x41, 0x40, 0xde, 0x5d, 0xae, 0x22, 0x23,
      0xb0, 0x03, 0x61, 0xa3, 0x96, 0x17, 0x7a, 0x9c, 0xb4, 0x10, 0xff, 0x61, 0xf2, 0x00, 0x15, 0xad]
  {
    hide WordByte, DigestBytes;
    FirstBytes();
    LastBytes();
    var bytes := [
      0xba, 0x78, 0x16, 0xbf, 0x8f, 0x01, 0xcf, 0xea, 0x41, 0x41, 0x40, 0xde, 0x5d, 0xae, 0x22, 0x23,
      0xb0, 0x03, 0x61, 0xa3, 0x96, 0x17, 0x7a, 0x9c, 0xb4, 0x10, 0xff, 0x61, 0xf2, 0x00, 0x15, 0xad];
    Pieces(h, bytes);
  }

  lemma OneBlock(b: seq<byte>)
    requires AbcBlock(b)
    ensures Chain(b) == Compress(H0(), b)
  {
    hide Compress;
    assert b[..0] == [] && b[0..] == b;
  }

  // ---------- as text ----------

  lemma {:induction false} HexTextJoins(a: seq<byte>, b: seq<byte>)
    ensures HexText(a + b) == HexText(a) + HexText(b)
    decreases |b|
  {
    hide HexPair;
    if b == [] {
      assert a + b == a;
    } else {
      var front := b[..|b| - 1];
      assert (a + b)[..|a + b| - 1] == a + front;
      HexTextJoins(a, front);
    }
  }

  lemma HexOfWord(a: byte, b: byte, c: byte, d: byte)
    ensures HexText([a, b, c, d]) == HexPair(a) + HexPair(b) + HexPair(c) + HexPair(d)
  {
    hide HexPair;
    assert [a, b, c, d] == [a] + [b] + [c] + [d];
    HexTextJoins([a] + [b] + [c], [d]);
    HexTextJoins([a] + [b], [c]);
    HexTextJoins([a], [b]);
    assert forall x: byte :: HexText([x]) == HexPair(x) by {
      forall x: byte ensures HexText([x]) == HexPair(x) {
        assert [x][..0] == [];
      }
    }
  }

  lemma FirstWordTexts()
    ensures HexText([0xba, 0x78, 0x16, 0xbf]) == "ba7816bf"
    ensures HexText([0x8f, 0x01, 0xcf, 0xea]) == "8f01cfea"
    ensures HexText([0x41, 0x41, 0x40, 0xde]) == "414140de"
    ensures HexText([0x5d, 0xae, 0x22, 0x23]) == "5dae2223"
  {
    HexOfWord(0xba, 0x78, 0x16, 0xbf);
    HexOfWord(0x8f, 0x01, 0xcf, 0xea);
    HexOfWord(0x41, 0x41, 0x40, 0xde);
    HexOfWord(0x5d, 0xae, 0x22, 0x23);
    hide HexText;
  }

  lemma LastWordTexts()
    ensures HexText([0xb0, 0x03, 0x61, 0xa3]) == "b00361a3"
    ensures HexText([0x96, 0x17, 0x7a, 0x9c]) == "96177a9c"
    ensures HexText([0xb4, 0x10, 0xff, 0x61]) == "b410ff61"
    ensures HexText([0xf2, 0x00, 0x15, 0xad]) == "f20015ad"
  {
    HexOfWord(0xb0, 0x03, 0x61, 0xa3);
    HexOfWord(0x96, 0x17, 0x7a, 0x9c);
    HexOfWord(0xb4, 0x10, 0xff, 0x61);
    HexOfWord(0xf2, 0x00, 0x15, 0xad);
    hide HexText;
  }

  lemma HexOfEight(a: seq<byte>, b: seq<byte>, c: seq<byte>, d: seq<byte>,
                   e: seq<byte>, f: seq<byte>, g: seq<byte>, h: seq<byte>)
    ensures HexText(a + b + c + d + e + f + g + h) ==
      HexText(a) + HexText(b) + HexText(c) + HexText(d) + HexText(e) + HexText(f) + HexText(g) + HexText(h)
  {
    hide HexText;
    HexTextJoins(a, b);
    HexTextJoins(a + b, c);
    HexTextJoins(a + b + c, d);
    HexTextJoins(a + b + c + d, e);
    HexTextJoins(a + b + c + d + e, f);
    HexTextJoins(a + b + c + d + e + f, g);
    HexTextJoins(a + b + c + d + e + f + g, h);
  }

  lemma AbcParts()
    ensures Digest(ABC) ==
      [0xba, 0x78, 0x16, 0xbf] + [0x8f, 0x01, 0xcf, 0xea]
      + [0x41, 0x41, 0x40, 0xde] + [0x5d, 0xae, 0x22, 0x23]
      + [0xb0, 0x03, 0x61, 0xa3] + [0x96, 0x17, 0x7a, 0x9c]
      + [0xb4, 0x10, 0xff, 0x61] + [0xf2, 0x00, 0x15, 0xad]
  {
    hide Digest;
    AbcDigest();
  }

  /** The text the self test compares with. */
  lemma AbcText()
    ensures HexText(Digest(ABC)) ==
      "ba7816bf" + "8f01cfea" + "414140de" + "5dae2223"
      + "b00361a3" + "96177a9c" + "b410ff61" + "f20015ad"
  {
    hide Digest, HexText, HexPair;
    AbcParts();
    HexOfEight([0xba, 0x78, 0x16, 0xbf], [0x8f, 0x01, 0xcf, 0xea],
               [0x41, 0x41, 0x40, 0xde], [0x5d, 0xae, 0x22, 0x23],
               [0xb0, 0x03, 0x61, 0xa3], [0x96, 0x17, 0x7a, 0x9c],
               [0xb4, 0x10, 0xff, 0x61], [0xf2, 0x00, 0x15, 0xad]);
    FirstWordTexts();
    LastWordTexts();
  }
}
