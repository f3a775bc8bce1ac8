/**
 * The streaming SHA-256 of worker.cpp. The object keeps a hash value, a 64-byte
 * buffer and a bit count; the ghost field `seen` is the message consumed so far.
 */
module Sha256Stream {
  import opened Base
  import opened Fips180

  class Sha256 {
    const h: array<word>
    var bits: nat
    const buf: array<byte>
    var bufLen: nat
    ghost var seen: seq<byte>

    /** The hash value and the buffer together hold exactly the bytes of `m`. */
    ghost predicate Absorbed(m: seq<byte>)
      reads this, h, buf
    {
      && h != buf as object
      && h.Length == 8 && buf.Length == 64
      && bufLen == |m| % 64
      && buf[..bufLen] == m[|m| - bufLen..]
      && h[..] == Chain(m[..|m| - bufLen])
    }

    ghost predicate Valid()
      reads this, h, buf
    {
      Absorbed(seen) && bits == 8 * |seen| % U64
    }

    constructor ()
      ensures Valid() && seen == []
      ensures fresh(h) && fresh(buf)
    {
      hide H0, Chain;
      h := new word[8](i requires 0 <= i < 8 => H0()[i]);
      buf := new byte[64];
      bits, bufLen := 0, 0;
      seen := [];
      new;
      EmptyChain();
      assert h[..] == H0();
    }

    /** Consumes `data`, however the caller cut the message into pieces. */
    method Update(data: seq<byte>)
      requires Valid()
      modifies this, h, buf
      ensures Valid()
      ensures seen == old(seen) + data
    {
      hide Chain;
      bits := (bits + |data| % U64 * 8) % U64;
      UpdateRaw(data, seen);
      BitsGrow(|seen|, |data|);
      seen := seen + data;
    }

    /** The 32 bytes of the digest. The object is spent afterwards: padding went through the buffer. */
    method Final() returns (out: array<byte>)
      requires Valid()
      modifies this, h, buf
      ensures fresh(out)
      ensures out[..] == Digest(seen) && seen == old(seen)
    {
      hide Chain, DigestBytes, ByteOf, ZeroCount;
      var bitLen := bits;
      UpdateRaw([0x80], seen);
      PadZeros();
      var lenb := new byte[8];
      for i := 0 to 8
        invariant fresh(lenb) && lenb.Length == 8
        invariant forall j :: 8 - i <= j < 8 ==> lenb[j] == ByteOf(bitLen, 7 - j)
        modifies lenb
      {
        lenb[7 - i] := ByteOf(bitLen, i);
      }
      assert lenb[..] == LengthBytes(bitLen);
      UpdateRaw(lenb[..], seen + [0x80] + Zeros(ZeroCount(|seen|)));
      ghost var p := Pad(seen);
      assert p[..|p|] == p;
      out := EmitWords();
    }

    /** The loop `while buf_len_ != 56`. The buffer may wrap at 64 on the way; the zeros still to come count down. */
    method PadZeros()
      requires Absorbed(seen + [0x80])
      modifies this`bufLen, h, buf
      ensures Absorbed(seen + [0x80] + Zeros(ZeroCount(|seen|)))
    {
      hide Chain, ZeroCount, Absorbed, Zeros;
      assert seen + [0x80] + Zeros(0) == seen + [0x80] by { NoZeros(); }
      ghost var zeros: nat := 0;
      ghost var m := seen + [0x80];
      while bufLen != 56
        invariant zeros <= ZeroCount(|seen|) && m == seen + [0x80] + Zeros(zeros)
        invariant Absorbed(m)
        decreases ZeroCount(|seen|) - zeros
      {
        BufferedIsRest(m);
        ZeroCountIsSmallest(|seen|, zeros);
        UpdateRaw([0], m);
        OneMoreZero(seen, zeros);
        m := m + [0];
        zeros := zeros + 1;
      }
      BufferedIsRest(m);
      ZeroCountIsSmallest(|seen|, zeros);
    }

    lemma BufferedIsRest(m: seq<byte>)
      requires Absorbed(m)
      ensures bufLen == |m| % 64
    {
      hide Chain;
    }

    /** Each word of the hash value, most significant byte first. */
    method EmitWords() returns (out: array<byte>)
      requires h.Length == 8
      ensures fresh(out)
      ensures out[..] == DigestBytes(h[..])
    {
      hide WordByte;
      out := new byte[32];
      for i := 0 to 8
        invariant forall j :: 0 <= j < 4 * i ==> out[j] == WordByte(h[j / 4], j % 4)
      {
        out[i * 4 + 0] := WordByte(h[i], 0);
        out[i * 4 + 1] := WordByte(h[i], 1);
        out[i * 4 + 2] := WordByte(h[i], 2);
        out[i * 4 + 3] := WordByte(h[i], 3);
      }
      assert out[..] == DigestBytes(h[..]);
    }

    /** The buffer loop both paths share. `m` is what was absorbed before; the bit count does not move. */
    method UpdateRaw(data: seq<byte>, ghost m: seq<byte>)
      requires Absorbed(m)
      modifies this`bufLen, h, buf
      ensures Absorbed(m + data)
    {
      hide Chain, Absorbed;
      var at := 0;
      assert m + data[..0] == m;
      while at < |data|
        invariant 0 <= at <= |data|
        invariant Absorbed(m + data[..at])
      {
        var take := Fill(data[at..], m + data[..at]);
        SliceStep(m, data, at, take);
        assert data[at..][..take] == data[at..at + take];
        at := at + take;
      }
      assert data[..at] == data;
    }

    /** One turn of the buffer loop: as much of `rest` as fits is buffered, and a full buffer is compressed. */
    method Fill(rest: seq<byte>, ghost m: seq<byte>) returns (take: nat)
      requires Absorbed(m) && rest != []
      modifies this`bufLen, h, buf
      ensures 0 < take <= |rest| && Absorbed(m + rest[..take])
    {
      hide Chain, Compress;
      var room := 64 - bufLen;
      take := if |rest| < room then |rest| else room;
      var chunk := rest[..take];
      ghost var mc := m + chunk;
      CopyIn(chunk);
      FillIndices(m, chunk, bufLen);
      bufLen := bufLen + take;
      if bufLen == 64 {
        CompressBuffer(mc);
      }
    }

    /** A full buffer is one block. */
    method CompressBuffer(ghost m: seq<byte>)
      requires h != buf as object && h.Length == 8 && buf.Length == 64
      requires m != [] && |m| % 64 == 0 && buf[..64] == m[|m| - 64..] && h[..] == Chain(m[..|m| - 64])
      modifies this`bufLen, h
      ensures Absorbed(m)
    {
      hide Chain, Compress;
      ChainStep(m);
      assert buf[..] == buf[..64];
      Transform();
      bufLen := 0;
    }

    /** memcpy of `data` behind the bytes already buffered. */
    method CopyIn(data: seq<byte>)
      requires buf.Length == 64 && bufLen + |data| <= 64
      modifies buf
      ensures buf[..bufLen + |data|] == old(buf[..bufLen]) + data
    {
      for i := 0 to |data|
        invariant buf[..bufLen] == old(buf[..bufLen])
        invariant buf[bufLen..bufLen + i] == data[..i]
      {
        buf[bufLen + i] := data[i];
      }
      assert buf[..bufLen + |data|] == buf[..bufLen] + buf[bufLen..bufLen + |data|];
    }

    /** One block: the message schedule in an array, then 64 rounds over eight shifting variables. */
    method Transform()
      requires h != buf as object && h.Length == 8 && buf.Length == 64
      modifies h
      ensures h[..] == Compress(old(h[..]), buf[..])
    {
      hide Rounds;
      var w := Schedule(buf[..]);
      var v := RunRounds(h[..], w, buf[..]);
      AddInto(v);
    }

    /** The eight additions that end `transform`. */
    method AddInto(v: Vars)
      requires h.Length == 8
      modifies h
      ensures h[..] == AddVars(old(h[..]), v)
    {
      hide Plus;
      h[0] := Plus(h[0], v.a);
      h[1] := Plus(h[1], v.b);
      h[2] := Plus(h[2], v.c);
      h[3] := Plus(h[3], v.d);
      h[4] := Plus(h[4], v.e);
      h[5] := Plus(h[5], v.f);
      h[6] := Plus(h[6], v.g);
      h[7] := Plus(h[7], v.h);
      assert h[..] == [h[0], h[1], h[2], h[3], h[4], h[5], h[6], h[7]];
    }
  }

  /** The array `w` of `transform`. */
  method Schedule(block: seq<byte>) returns (w: array<word>)
    requires |block| == 64
    ensures fresh(w) && w.Length == 64
    ensures forall t :: 0 <= t < 64 ==> w[t] == W(block, t)
  {
    hide RotR, Sum4, SmallSigma0, SmallSigma1, LoadBe;
    w := new word[64];
    for i := 0 to 16
      invariant forall j :: 0 <= j < i ==> w[j] == W(block, j)
    {
      w[i] := LoadBe(block, i * 4);
    }
    for i := 16 to 64
      invariant forall j :: 0 <= j < i ==> w[j] == W(block, j)
    {
      var s0 := SmallSigma0(w[i - 15]);
      var s1 := SmallSigma1(w[i - 2]);
      SumOfFour(w[i - 16], s0, w[i - 7], s1);
      w[i] := Sum4(w[i - 16], s0, w[i - 7], s1);
    }
  }

  /** The 64 rounds of `transform`. */
  method RunRounds(hash: seq<word>, w: array<word>, ghost block: seq<byte>) returns (v: Vars)
    requires |hash| == 8 && |block| == 64 && w.Length == 64
    requires forall t :: 0 <= t < 64 ==> w[t] == W(block, t)
    ensures v == Rounds(hash, block, 64)
  {
    hide RotR, Plus, W, K, BigSigma0, BigSigma1, Ch, Maj;
    var a, b, c, d := hash[0], hash[1], hash[2], hash[3];
    var e, f, g, h := hash[4], hash[5], hash[6], hash[7];
    for i := 0 to 64
      invariant Vars(a, b, c, d, e, f, g, h) == Rounds(hash, block, i)
    {
      var temp1 := Plus(Plus(Plus(Plus(h, BigSigma1(e)), Ch(e, f, g)), K(i)), w[i]);
      var temp2 := Plus(BigSigma0(a), Maj(a, b, c));
      h := g;
      g := f;
      f := e;
      e := Plus(d, temp1);
      d := c;
      c := b;
      b := a;
      a := Plus(temp1, temp2);
    }
    v := Vars(a, b, c, d, e, f, g, h);
  }

  lemma SliceStep(m: seq<byte>, data: seq<byte>, at: nat, take: nat)
    requires at + take <= |data|
    ensures m + data[..at + take] == m + data[..at] + data[at..at + take]
  {
  }

  lemma NoZeros()
    ensures Zeros(0) == []
  {
  }

  lemma OneMoreZero(m: seq<byte>, n: nat)
    ensures m + [0x80] + Zeros(n) + [0] == m + [0x80] + Zeros(n + 1)
    ensures |m + [0x80] + Zeros(n)| == |m| + 1 + n
  {
    assert Zeros(n + 1) == Zeros(n) + [0];
  }

  /** `transform` adds the four terms of the schedule in the opposite order. */
  lemma SumOfFour(p: word, q: word, r: word, s: word)
    ensures Sum4(p, q, r, s) == Sum4(s, r, q, p)
  {
  }

  /** Where the buffered tail and the compressed blocks of `m + chunk` are, when `chunk` fits the buffer. */
  lemma FillIndices(m: seq<byte>, chunk: seq<byte>, len: nat)
    requires len == |m| % 64 && 0 < |chunk| <= 64 - len
    ensures m[|m| - len..] + chunk == (m + chunk)[|m| - len..]
    ensures (m + chunk)[..|m| - len] == m[..|m| - len]
    ensures |m + chunk| % 64 == if len + |chunk| == 64 then 0 else len + |chunk|
  {
  }

  lemma EmptyChain()
    ensures Chain([]) == H0()
  {
    hide H0;
  }

  /** Absorbing the block that fills the buffer is one step of the chain. */
  lemma ChainStep(m: seq<byte>)
    requires m != [] && |m| % 64 == 0
    ensures |m| >= 64 && |m[..|m| - 64]| % 64 == 0 && m[..|m|] == m
    ensures Chain(m) == Compress(Chain(m[..|m| - 64]), m[|m| - 64..])
  {
    hide Compress;
    assert m[..|m|] == m;
  }

  lemma BitsGrow(before: nat, more: nat)
    ensures (8 * before % U64 + more % U64 * 8) % U64 == 8 * (before + more) % U64
  {
    var q := 8 * before / U64;
    var p := more / U64;
    assert 8 * (before + more) == (8 * before % U64 + more % U64 * 8) + U64 * (q + 8 * p);
    ModShift(8 * before % U64 + more % U64 * 8, q + 8 * p);
  }

  lemma ModShift(x: nat, k: nat)
    ensures (x + U64 * k) % U64 == x % U64
  {
    var q := x / U64;
    assert x + U64 * k == U64 * (q + k) + x % U64;
  }
}
