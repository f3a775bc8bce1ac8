/** split_ranges of forge.hpp: how an input of `size` bytes is cut into one slice for each worker. */
module Ranges {
  import opened Base

  newtype u64 = x: int | 0 <= x < U64
  newtype i32 = x: int | -0x8000_0000 <= x < 0x8000_0000

  datatype ByteRange = ByteRange(offset: nat, length: nat)

  // ---------- the result in closed form ----------

  /** How many of `units` things worker `i` of `workers` gets: the first `units % workers` get one more. */
  function Share(units: nat, workers: nat, i: nat): nat
    requires workers > 0
  {
    units / workers + if i < units % workers then 1 else 0
  }

  /** How many things the workers before `i` get. */
  function Start(units: nat, workers: nat, i: nat): nat
    requires workers > 0
  {
    i * (units / workers) + if i < units % workers then i else units % workers
  }

  /** Slice `i` when `units` pieces of `align` bytes are shared out and `extra` bytes stick to the last slice. */
  function Piece(units: nat, workers: nat, align: nat, extra: nat, i: nat): ByteRange
    requires workers > 0
  {
    ByteRange(align * Start(units, workers, i),
              align * Share(units, workers, i) + if i == workers - 1 then extra else 0)
  }

  /** The first `n` slices. */
  function Pieces(units: nat, workers: nat, align: nat, extra: nat, n: nat): (r: seq<ByteRange>)
    requires workers > 0
    ensures |r| == n
  {
    seq(n, i requires 0 <= i => Piece(units, workers, align, extra, i))
  }

  function SplitRanges(size: nat, workers: int, align: nat): seq<ByteRange> {
    if size == 0 || workers <= 1 then [ByteRange(0, size)]
    else if align <= 1 then Pieces(size, workers, 1, 0, workers)
    else if size < align then [ByteRange(0, size)]
    else Pieces(size / align, workers, align, size % align, workers)
  }

  // ---------- the loops of forge.hpp, on 64-bit integers ----------

  /** The code. Every operation stays inside its machine type, so nothing wraps. */
  method Split(size: u64, workers: i32, align: u64) returns (out: seq<ByteRange>)
    ensures out == SplitRanges(size as int, workers as int, align as int)
  {
    out := [];
    var workers := if workers < 1 then 1 else workers;
    if size == 0 || workers == 1 {
      return [ByteRange(0, size as int)];
    }
    if align <= 1 {
      out := SplitUnits(size, workers, 1, 0);
      return;
    }
    var prefix := size - size % align;
    BlocksOf(size as int, align as int);
    if prefix == 0 {
      return [ByteRange(0, size as int)];
    }
    var blocks := prefix / align;
    out := SplitUnits(blocks, workers, align, size - prefix);
  }

  /** The loop both alignments share: `units` pieces of `align` bytes, `extra` bytes stuck to the last slice. */
  method SplitUnits(units: u64, workers: i32, align: u64, extra: u64) returns (out: seq<ByteRange>)
    requires workers > 1 && align > 0
    requires align as int * units as int + extra as int < U64
    ensures out == Pieces(units as int, workers as int, align as int, extra as int, workers as int)
  {
    hide Start, Share, Pieces;
    ghost var total: nat, parts: nat, step: nat := units as int, workers as int, align as int;
    StartStep(total, parts, 0, step);
    NoPieces(total, parts, step, extra as int);
    var nworkers := workers as u64;
    var base := units / nworkers;
    var rem := units % nworkers;
    var off: u64 := 0;
    out := [];
    for i := 0 to workers
      invariant i < workers ==> off as int == step * Start(total, parts, i as int)
      invariant out == Pieces(total, parts, step, extra as int, i as int)
    {
      ghost var len := LoopStep(total, parts, step, extra as int, i as int);
      var b := base + if i as u64 < rem then 1 else 0;
      var n := b * align;
      if i == workers - 1 {
        n := n + extra;
      }
      out := out + [ByteRange(off as int, n as int)];
      off := off + n;
    }
  }

  lemma NoPieces(units: nat, workers: nat, align: nat, extra: nat)
    requires workers > 0
    ensures Pieces(units, workers, align, extra, 0) == []
  {
  }

  /** One turn of the loop: what it appends, and where the next slice begins. Nothing exceeds 64 bits. */
  lemma LoopStep(units: nat, workers: nat, align: nat, extra: nat, i: nat) returns (len: nat)
    requires i < workers && align > 0 && align * units + extra < U64
    ensures len == (units / workers + if i < units % workers then 1 else 0) * align
    ensures units / workers + (if i < units % workers then 1 else 0) < U64
    ensures var off := align * Start(units, workers, i);
      && off + len + extra < U64 && off + len == align * Start(units, workers, i + 1)
      && Pieces(units, workers, align, extra, i + 1) ==
         Pieces(units, workers, align, extra, i) + [ByteRange(off, len + if i == workers - 1 then extra else 0)]
  {
    hide Start, Share;
    StartStep(units, workers, i, align);
    ShareIs(units, workers, i);
    len := Share(units, workers, i) * align;
    MulMono(1, align, Share(units, workers, i));
  }

  // ---------- arithmetic ----------

  lemma ShareIs(units: nat, workers: nat, i: nat)
    requires workers > 0
    ensures Share(units, workers, i) == units / workers + if i < units % workers then 1 else 0
  {
  }

  lemma StartStep(units: nat, workers: nat, i: nat, align: nat)
    requires i < workers
    ensures Start(units, workers, i + 1) == Start(units, workers, i) + Share(units, workers, i)
    ensures align * Start(units, workers, i + 1) == align * Start(units, workers, i) + align * Share(units, workers, i)
    ensures align * Start(units, workers, i + 1) <= align * units
    ensures Start(units, workers, workers) == units && Start(units, workers, 0) == 0
  {
    var base, rem := units / workers, units % workers;
    assert units == base * workers + rem;
    assert (i + 1) * base == i * base + base;
    MulMono(i + 1, workers, base);
    MulMono(Start(units, workers, i + 1), units, align);
  }

  lemma MulMono(x: nat, y: nat, k: nat)
    requires x <= y
    ensures x * k <= y * k
  {
    assert y * k == x * k + (y - x) * k;
  }

  lemma BlocksOf(size: nat, align: nat)
    requires align > 0
    ensures size == align * (size / align) + size % align
    ensures size - size % align == 0 <==> size < align
    ensures (size - size % align) / align == size / align
  {
    var q, rest := size / align, size % align;
    assert size == q * align + rest;
    if q > 0 {
      MulMono(1, q, align);
    }
    DivOfMultiple(q, align);
  }

  lemma DivOfMultiple(q: nat, d: nat)
    requires d > 0
    ensures q * d / d == q
  {
    var r := q * d / d;
    var m := q * d % d;
    assert q * d == r * d + m;
    assert (q - r) * d == m && (r - q) * d == -m;
    if q > r {
      MulMono(1, q - r, d);
    } else if q < r {
      MulMono(1, r - q, d);
    }
  }

  // ---------- what the slices are for ----------

  /** The slices lie end to end and cover [0, size). */
  ghost predicate Partition(rs: seq<ByteRange>, size: nat) {
    && |rs| > 0
    && rs[0].offset == 0
    && (forall i, j :: 0 <= i < j < |rs| && j == i + 1 ==> rs[j].offset == rs[i].offset + rs[i].length)
    && rs[|rs| - 1].offset + rs[|rs| - 1].length == size
  }

  /**
   * For every size, worker count and alignment the slices are a partition: one slice for each worker, or a
   * single one if there is nothing to divide.
   */
  lemma SplitPartitions(size: nat, workers: int, align: nat)
    ensures Partition(SplitRanges(size, workers, align), size)
    ensures |SplitRanges(size, workers, align)| ==
      if workers > 1 && size > 0 && (align <= 1 || size >= align) then workers else 1
  {
    var rs := SplitRanges(size, workers, align);
    if |rs| > 1 {
      var unit := if align <= 1 then 1 else align;
      var units := size / unit;
      BlocksOf(size, unit);
      forall i | 0 <= i < |rs|
        ensures rs[i].offset == unit * Start(units, workers, i)
        ensures rs[i].length == unit * Share(units, workers, i) + if i == workers - 1 then size % unit else 0
        ensures unit * Start(units, workers, i + 1) == rs[i].offset + unit * Share(units, workers, i)
      {
        StartStep(units, workers, i, unit);
      }
      StartStep(units, workers, workers - 1, unit);
    }
  }

  /** Byte mode is as even as it can be. */
  lemma SplitIsEven(size: nat, workers: int, i: nat, j: nat)
    requires i < |SplitRanges(size, workers, 1)| && j < |SplitRanges(size, workers, 1)|
    ensures SplitRanges(size, workers, 1)[i].length <= SplitRanges(size, workers, 1)[j].length + 1
    ensures i <= j ==> SplitRanges(size, workers, 1)[i].length >= SplitRanges(size, workers, 1)[j].length
  {
  }

  /** Aligned mode: aligned offsets, aligned lengths except the last, and block counts that differ by at most one. */
  lemma SplitIsAligned(size: nat, workers: int, align: nat, i: nat, j: nat)
    requires align > 1
    requires i < |SplitRanges(size, workers, align)| && j < |SplitRanges(size, workers, align)|
    ensures SplitRanges(size, workers, align)[i].offset % align == 0
    ensures i < |SplitRanges(size, workers, align)| - 1 ==> SplitRanges(size, workers, align)[i].length % align == 0
    ensures SplitRanges(size, workers, align)[i].length / align <= SplitRanges(size, workers,
      align)[j].length / align + 1
  {
    var rs := SplitRanges(size, workers, align);
    if |rs| > 1 {
      var blocks := size / align;
      MultipleMod(Start(blocks, workers, i), align, 0);
      MultipleMod(Share(blocks, workers, i), align, if i == workers - 1 then size % align else 0);
      MultipleMod(Share(blocks, workers, j), align, if j == workers - 1 then size % align else 0);
    }
  }

  /** The last aligned slice is the leftover bytes alone exactly when there are more workers than blocks. */
  lemma ThinAlignedSplit(size: nat, workers: int, align: nat)
    requires align > 1 && workers > 1 && size >= align
    ensures var rs := SplitRanges(size, workers, align);
      && |rs| == workers
      && (rs[workers - 1].length == size % align <==> size / align < workers)
      && (size / align >= workers ==> rs[workers - 1].length >= align)
  {
    var blocks := size / align;
    BlocksOf(size, align);
    LastShare(blocks, workers);
    var share := Share(blocks, workers, workers - 1);
    hide Share, Start;
    if blocks < workers {
      assert align * share == 0;
    } else {
      MulMono(1, share, align);
    }
  }

  lemma LastShare(units: nat, workers: nat)
    requires workers > 0
    ensures Share(units, workers, workers - 1) == 0 <==> units < workers
  {
    var q, r := units / workers, units % workers;
    assert units == q * workers + r;
    if units >= workers && q == 0 {
      assert false;
    }
  }

  lemma MultipleMod(k: nat, d: nat, r: nat)
    requires r < d
    ensures (d * k + r) % d == r && (d * k + r) / d == k
  {
    var q, m := (d * k + r) / d, (d * k + r) % d;
    assert d * k + r == q * d + m;
    assert (q - k) * d == r - m && (k - q) * d == m - r;
    if q > k {
      MulMono(1, q - k, d);
    } else if q < k {
      MulMono(1, k - q, d);
    }
  }

  // ---------- consequences for the bytes of a file ----------

  function Slice(file: seq<byte>, r: ByteRange): seq<byte>
    requires r.offset + r.length <= |file|
  {
    file[r.offset..r.offset + r.length]
  }

  /** Slices of a partition stay inside the file, and slice `i` starts after the ones before it. */
  lemma {:induction false} PartitionBounds(rs: seq<ByteRange>, size: nat, i: nat, j: nat)
    requires Partition(rs, size) && i <= j < |rs|
    ensures rs[i].offset <= rs[j].offset && rs[j].offset + rs[j].length <= size
    ensures i < j ==> rs[i].offset + rs[i].length <= rs[j].offset
    decreases |rs| - i
  {
    if i < j {
      PartitionBounds(rs, size, i + 1, j);
    } else if i < |rs| - 1 {
      PartitionBounds(rs, size, i + 1, |rs| - 1);
    }
  }

  /** The bytes of the first `n` slices, one after the other. */
  function Joined(file: seq<byte>, rs: seq<ByteRange>, n: nat): seq<byte>
    requires n <= |rs| && forall i :: 0 <= i < n ==> rs[i].offset + rs[i].length <= |file|
  {
    if n == 0 then [] else Joined(file, rs, n - 1) + Slice(file, rs[n - 1])
  }

  function TotalLength(rs: seq<ByteRange>, n: nat): nat
    requires n <= |rs|
  {
    if n == 0 then 0 else TotalLength(rs, n - 1) + rs[n - 1].length
  }

  /** Putting the slices of a partition back together gives the file; their lengths add up to its size. */
  lemma {:induction false} PartitionJoins(file: seq<byte>, rs: seq<ByteRange>, n: nat)
    requires Partition(rs, |file|) && n <= |rs|
    ensures forall i :: 0 <= i < |rs| ==> rs[i].offset + rs[i].length <= |file|
    ensures Joined(file, rs, n) == if n < |rs| then file[..rs[n].offset] else file
    ensures TotalLength(rs, n) == |Joined(file, rs, n)|
  {
    hide Partition, Slice;
    SlicesInside(rs, |file|);
    SliceEnds(rs, |file|, n);
    if n > 0 {
      PartitionJoins(file, rs, n - 1);
      TakeSlice(file, rs[n - 1]);
    }
  }

  /** Each slice ends where the next begins, the last at the end of the file. */
  lemma SliceEnds(rs: seq<ByteRange>, size: nat, n: nat)
    requires Partition(rs, size) && n <= |rs|
    ensures |rs| > 0
    ensures n == 0 ==> rs[0].offset == 0
    ensures n > 0 ==> rs[n - 1].offset + rs[n - 1].length == if n < |rs| then rs[n].offset else size
  {
  }

  lemma TakeSlice(file: seq<byte>, r: ByteRange)
    requires r.offset + r.length <= |file|
    ensures file[..r.offset] + Slice(file, r) == file[..r.offset + r.length] && |Slice(file, r)| == r.length
    ensures r.offset + r.length == |file| ==> file[..r.offset + r.length] == file
  {
  }

  lemma SlicesInside(rs: seq<ByteRange>, size: nat)
    requires Partition(rs, size)
    ensures forall i :: 0 <= i < |rs| ==> rs[i].offset + rs[i].length <= size
  {
    forall i | 0 <= i < |rs| ensures rs[i].offset + rs[i].length <= size {
      PartitionBounds(rs, size, i, i);
    }
  }
}
