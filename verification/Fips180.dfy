/**
 * SHA-256 as FIPS 180-4 defines it: padding (section 5.1.1), the initial hash
 * value (section 5.3.3), the functions and constants (sections 4.1.2 and 4.2.2)
 * and the computation (section 6.2.2). Everything is a recursive definition; the
 * streaming implementation is in Sha256.dfy.
 */
module Fips180 {
  import opened Base

  type word = bv32

  function RotR(x: word, n: nat): word
    requires 0 < n < 32
  {
    (x >> n) | (x << (32 - n))
  }

  function Ch(x: word, y: word, z: word): word { (x & y) ^ ((!x) & z) }

  function Maj(x: word, y: word, z: word): word { (x & y) ^ (x & z) ^ (y & z) }

  function BigSigma0(x: word): word { RotR(x, 2) ^ RotR(x, 13) ^ RotR(x, 22) }

  function BigSigma1(x: word): word { RotR(x, 6) ^ RotR(x, 11) ^ RotR(x, 25) }

  function SmallSigma0(x: word): word { RotR(x, 7) ^ RotR(x, 18) ^ (x >> 3) }

  function SmallSigma1(x: word): word { RotR(x, 17) ^ RotR(x, 19) ^ (x >> 10) }

  /** The round constants of section 4.2.2, eight to a row. */
  const K_TABLE: seq<seq<word>> := [
    [0x428a2f98, 0x71374491, 0xb5c0fbcf, 0xe9b5dba5, 0x3956c25b, 0x59f111f1, 0x923f82a4, 0xab1c5ed5],
    [0xd807aa98, 0x12835b01, 0x243185be, 0x550c7dc3, 0x72be5d74, 0x80deb1fe, 0x9bdc06a7, 0xc19bf174],
    [0xe49b69c1, 0xefbe4786, 0x0fc19dc6, 0x240ca1cc, 0x2de92c6f, 0x4a7484aa, 0x5cb0a9dc, 0x76f988da],
    [0x983e5152, 0xa831c66d, 0xb00327c8, 0xbf597fc7, 0xc6e00bf3, 0xd5a79147, 0x06ca6351, 0x14292967],
    [0x27b70a85, 0x2e1b2138, 0x4d2c6dfc, 0x53380d13, 0x650a7354, 0x766a0abb, 0x81c2c92e, 0x92722c85],
    [0xa2bfe8a1, 0xa81a664b, 0xc24b8b70, 0xc76c51a3, 0xd192e819, 0xd6990624, 0xf40e3585, 0x106aa070],
    [0x19a4c116, 0x1e376c08, 0x2748774c, 0x34b0bcb5, 0x391c0cb3, 0x4ed8aa4a, 0x5b9cca4f, 0x682e6ff3],
    [0x748f82ee, 0x78a5636f, 0x84c87814, 0x8cc70208, 0x90befffa, 0xa4506ceb, 0xbef9a3f7, 0xc67178f2]]

  function K(t: nat): word
    requires t < 64
  {
    K_TABLE[t / 8][t % 8]
  }

  /** The initial hash value of section 5.3.3. */
  function H0(): (r: seq<word>)
    ensures |r| == 8
  {
    [0x6a09e667, 0xbb67ae85, 0x3c6ef372, 0xa54ff53a, 0x510e527f, 0x9b05688c, 0x1f83d9ab, 0x5be0cd19]
  }

  /** Addition modulo 2^32. */
  function Plus(x: word, y: word): word { x + y }

  function Sum4(p: word, q: word, r: word, s: word): word { p + q + r + s }

  /** The big-endian word at byte `at` of `block`. */
  function LoadBe(block: seq<byte>, at: nat): word
    requires at + 4 <= |block|
  {
    ((block[at] as word) << 24) | ((block[at + 1] as word) << 16) |
    ((block[at + 2] as word) << 8) | (block[at + 3] as word)
  }

  /** The message schedule, section 6.2.2 step 1. */
  function W(block: seq<byte>, t: nat): word
    requires |block| == 64
  {
    if t < 16 then LoadBe(block, 4 * t)
    else
      Sum4(SmallSigma1(W(block, t - 2)), W(block, t - 7), SmallSigma0(W(block, t - 15)), W(block, t - 16))
  }

  /** The eight working variables. */
  datatype Vars = Vars(a: word, b: word, c: word, d: word, e: word, f: word, g: word, h: word)

  /** One iteration of section 6.2.2 step 3. */
  function Round(v: Vars, k: word, w: word): Vars {
    var t1 := Plus(Plus(Plus(Plus(v.h, BigSigma1(v.e)), Ch(v.e, v.f, v.g)), k), w);
    var t2 := Plus(BigSigma0(v.a), Maj(v.a, v.b, v.c));
    Vars(Plus(t1, t2), v.a, v.b, v.c, Plus(v.d, t1), v.e, v.f, v.g)
  }

  /** The working variables after the first `t` iterations on `block`. */
  function Rounds(hash: seq<word>, block: seq<byte>, t: nat): Vars
    requires |hash| == 8 && |block| == 64 && t <= 64
  {
    if t == 0 then Vars(hash[0], hash[1], hash[2], hash[3], hash[4], hash[5], hash[6], hash[7])
    else Round(Rounds(hash, block, t - 1), K(t - 1), W(block, t - 1))
  }

  /** Section 6.2.2 step 4. */
  function AddVars(hash: seq<word>, v: Vars): (r: seq<word>)
    requires |hash| == 8
    ensures |r| == 8
  {
    [Plus(hash[0], v.a), Plus(hash[1], v.b), Plus(hash[2], v.c), Plus(hash[3], v.d),
     Plus(hash[4], v.e), Plus(hash[5], v.f), Plus(hash[6], v.g), Plus(hash[7], v.h)]
  }

  /** Section 6.2.2 steps 2 to 4: the hash value after one more block. */
  function Compress(hash: seq<word>, block: seq<byte>): (r: seq<word>)
    requires |hash| == 8 && |block| == 64
    ensures |r| == 8
  {
    var v := Rounds(hash, block, 64);
    AddVars(hash, v)
  }

  /** The hash value after all the blocks of `m`. */
  function Chain(m: seq<byte>): (r: seq<word>)
    requires |m| % 64 == 0
    ensures |r| == 8
  {
    if m == [] then H0() else Compress(Chain(m[..|m| - 64]), m[|m| - 64..])
  }

  function Joined(blocks: seq<seq<byte>>): (m: seq<byte>)
    requires forall i :: 0 <= i < |blocks| ==> |blocks[i]| == 64
    ensures |m| == 64 * |blocks|
  {
    if blocks == [] then [] else Joined(blocks[..|blocks| - 1]) + blocks[|blocks| - 1]
  }

  /** Section 6.2.2 as the loop it describes: block after block, each updating the hash value of those before it. */
  function Absorb(hash: seq<word>, blocks: seq<seq<byte>>): (r: seq<word>)
    requires |hash| == 8 && forall i :: 0 <= i < |blocks| ==> |blocks[i]| == 64
    ensures |r| == 8
    decreases |blocks|
  {
    if blocks == [] then hash else Absorb(Compress(hash, blocks[0]), blocks[1..])
  }

  lemma ChainIsLoop(blocks: seq<seq<byte>>)
    requires forall i :: 0 <= i < |blocks| ==> |blocks[i]| == 64
    ensures Chain(Joined(blocks)) == Absorb(H0(), blocks)
  {
    hide Compress, H0;
    ChainFrom([], blocks);
    assert [] + blocks == blocks;
  }

  lemma {:induction false} ChainFrom(a: seq<seq<byte>>, b: seq<seq<byte>>)
    requires forall i :: 0 <= i < |a| ==> |a[i]| == 64
    requires forall i :: 0 <= i < |b| ==> |b[i]| == 64
    ensures Chain(Joined(a + b)) == Absorb(Chain(Joined(a)), b)
    decreases |b|
  {
    hide Compress, H0;
    if b == [] {
      assert a + b == a;
    } else {
      var more := a + [b[0]];
      assert more[..|more| - 1] == a;
      ChainLast(Joined(a), b[0]);
      ChainFrom(more, b[1..]);
      assert more + b[1..] == a + b;
    }
  }

  lemma ChainLast(m: seq<byte>, block: seq<byte>)
    requires |m| % 64 == 0 && |block| == 64
    ensures Chain(m + block) == Compress(Chain(m), block)
  {
    hide Compress, H0;
    assert (m + block)[..|m + block| - 64] == m && (m + block)[|m + block| - 64..] == block;
  }

  /** The 64-bit big-endian block that ends the padding; `l` is the length in bits. */
  function LengthBytes(l: nat): (r: seq<byte>)
    ensures |r| == 8
  {
    seq(8, i requires 0 <= i < 8 => ByteOf(l, 7 - i))
  }

  /** Byte `i` of `l`, counted from the least significant one. */
  function ByteOf(l: nat, i: nat): byte {
    if i == 0 then (l % 256) as byte else ByteOf(l / 256, i - 1)
  }

  function Pow256(n: nat): (p: nat)
    ensures p > 0
  {
    if n == 0 then 1 else 256 * Pow256(n - 1)
  }

  /** The number these bytes denote, most significant first. */
  function BigEndian(s: seq<byte>): nat {
    if s == [] then 0 else 256 * BigEndian(s[..|s| - 1]) + s[|s| - 1] as nat
  }

  /** The length block denotes the length. */
  lemma LengthReads(l: nat)
    requires l < U64
    ensures BigEndian(LengthBytes(l)) == l
  {
    assert LengthBytes(l) == seq(8, i requires 0 <= i < 8 => ByteOf(l, 7 - i));
    LowBytesRead(l, 8);
    assert Pow256(8) == U64 by {
      assert Pow256(4) == 0x1_0000_0000;
    }
  }

  lemma {:induction false} LowBytesRead(l: nat, n: nat)
    ensures BigEndian(seq(n, i requires 0 <= i < n => ByteOf(l, n - 1 - i))) == l % Pow256(n)
  {
    var s := seq(n, i requires 0 <= i < n => ByteOf(l, n - 1 - i));
    if n > 0 {
      assert s[..n - 1] == seq(n - 1, i requires 0 <= i < n - 1 => ByteOf(l / 256, n - 1 - 1 - i));
      LowBytesRead(l / 256, n - 1);
      ModByParts(l, Pow256(n - 1));
    }
  }

  lemma ModByParts(l: nat, p: nat)
    requires p > 0
    ensures l % (256 * p) == 256 * (l / 256 % p) + l % 256
  {
    var q, r := l / 256, l % 256;
    var a, b := q / p, q % p;
    assert q == p * a + b;
    assert l == (256 * p) * a + (256 * b + r);
    RemainderIs(l, 256 * p, a, 256 * b + r);
  }

  lemma RemainderIs(l: nat, d: nat, a: nat, r: nat)
    requires l == d * a + r && r < d
    ensures l % d == r
  {
    assert l == d * (l / d) + l % d;
    Multiples(d, l / d, a);
  }

  lemma Multiples(d: nat, a: int, b: int)
    ensures a < b ==> d * a + d <= d * b
    ensures b < a ==> d * b + d <= d * a
  {
    if a < b {
      assert d * (a + 1) <= d * b;
    } else if b < a {
      assert d * (b + 1) <= d * a;
    }
  }

  /** The number of zero bytes of padding: the `k` of section 5.1.1, in bytes. */
  function ZeroCount(len: nat): nat {
    (119 - len % 64) % 64
  }

  /** Section 5.1.1 says: the smallest k >= 0 that leaves room for exactly the length block. */
  lemma ZeroCountIsSmallest(len: nat, k: nat)
    ensures (len + 1 + ZeroCount(len)) % 64 == 56
    ensures (len + 1 + ZeroCount(len) + 8) % 64 == 0
    ensures (len + 1 + k) % 64 == 56 ==> ZeroCount(len) <= k
  {
    var q := len / 64;
    assert len == 64 * q + len % 64;
  }

  function Zeros(n: nat): (r: seq<byte>)
    ensures |r| == n
  {
    seq(n, i => 0)
  }

  /** Section 5.1.1. FIPS 180-4 defines it for messages shorter than 2^64 bits; the length is taken modulo 2^64. */
  function Pad(m: seq<byte>): (r: seq<byte>)
    ensures |r| % 64 == 0
  {
    ZeroCountIsSmallest(|m|, 0);
    m + [0x80] + Zeros(ZeroCount(|m|)) + LengthBytes(8 * |m| % U64)
  }

  /** The eight words of a hash value, each most significant byte first. */
  function DigestBytes(hash: seq<word>): (r: seq<byte>)
    requires |hash| == 8
    ensures |r| == 32
  {
    seq(32, i requires 0 <= i < 32 => WordByte(hash[i / 4], i % 4))
  }

  function WordByte(w: word, i: nat): byte
    requires i < 4
  {
    ((w >> (24 - 8 * i)) & 0xff) as bv8 as byte
  }

  /** The SHA-256 digest of `m`. */
  function Digest(m: seq<byte>): (r: seq<byte>)
    ensures |r| == 32
  {
    DigestBytes(Chain(Pad(m)))
  }
}
