/** What one worker computes for its slice: the operation part of worker_entry, and the slot it publishes. */
module Worker {
  import opened Base
  import opened MetaCodec
  import opened Ranges
  import opened Reader
  import opened Sha256Stream
  import Fips180

  /** ChunkResult of forge.hpp. The C strings are texts; the error is cut to what its array holds. */
  datatype ChunkResult = ChunkResult(index: nat, ok: bool, offset: nat, length: nat, bytes: nat, aux: nat,
                                     hex: string, error: string)

  /** ChunkResult{}: a slot of the zeroed region. */
  const EMPTY_SLOT := ChunkResult(0, false, 0, 0, 0, 0, "", "")

  const ERROR_CHARS := 159

  const HEX := "0123456789abcdef"

  /** Two lower-case hexadecimal digits for each byte. */
  function HexText(bytes: seq<byte>): (s: string)
    ensures |s| == 2 * |bytes|
  {
    if bytes == [] then ""
    else HexText(bytes[..|bytes| - 1]) + HexPair(bytes[|bytes| - 1])
  }

  function HexPair(b: byte): string {
    [HEX[b as int / 16], HEX[b as int % 16]]
  }

  /** The value of a lower-case hexadecimal digit, by its character code. */
  function DigitValue(c: char): Option<nat> {
    if '0' <= c <= '9' then Some(c as nat - 0x30)
    else if 'a' <= c <= 'f' then Some(c as nat - 0x61 + 10)
    else None
  }

  /** Digits `2 * i` and `2 * i + 1` of the text are byte `i`, the high four bits first. */
  lemma {:induction false} HexTextReads(bytes: seq<byte>, i: nat)
    requires i < |bytes|
    ensures var s := HexText(bytes);
      var high, low := DigitValue(s[2 * i]), DigitValue(s[2 * i + 1]);
      high.Some? && low.Some? && 16 * high.value + low.value == bytes[i] as nat
  {
    var front := bytes[..|bytes| - 1];
    if i < |front| {
      HexTextReads(front, i);
    } else {
      PairReads(bytes[i]);
    }
  }

  lemma PairReads(b: byte)
    ensures var s := HexPair(b);
      && |s| == 2 && DigitValue(s[0]).Some? && DigitValue(s[1]).Some?
      && 16 * DigitValue(s[0]).value + DigitValue(s[1]).value == b as nat
  {
    HexDigitReads(b as int / 16);
    HexDigitReads(b as int % 16);
  }

  lemma HexDigitReads(d: nat)
    requires d < 16
    ensures DigitValue(HEX[d]) == Some(d)
  {
  }

  /** The slot of a worker that did its work: a function of the slice alone, whatever the I/O mode. */
  function GoodChunk(op: Op, file: seq<byte>, index: nat, r: ByteRange): (c: ChunkResult)
    requires r.offset + r.length <= |file|
    ensures c.ok && c.index == index
  {
    var slice := Slice(file, r);
    match op
    case OpCount => ChunkResult(index, true, r.offset, r.length, |slice|, ByteSum(slice) % U64, "", "")
    case OpCopy => ChunkResult(index, true, r.offset, r.length, |slice|, 0, "", "")
    case _ => ChunkResult(index, true, r.offset, r.length, |slice|, 0, HexText(Fips180.Digest(slice)), "")
  }

  /** The slot of fail_chunk. */
  function FailedChunk(index: nat, r: ByteRange, error: string): ChunkResult {
    ChunkResult(index, false, r.offset, r.length, 0, 0, "",
                if |error| <= ERROR_CHARS then error else error[..ERROR_CHARS])
  }

  /** The slot on success or the text for fail_chunk, and the file that is under the name `output` by then, if any. */
  datatype Outcome =
    | Done(chunk: ChunkResult, output: Option<seq<byte>>)
    | Fails(error: string, output: Option<seq<byte>>)

  /** The operation of worker_entry on an input that is still as long as the range says. */
  method RunOperation(k: Kernel, op: Op, io: Io, index: nat, r: ByteRange) returns (o: Outcome)
    requires k.page > 0 && r.offset + r.length <= |k.file| < U64
    modifies k
    ensures o.Done? ==> op in {OpSha256, OpChunkSha256, OpCount, OpCopy}
    ensures o.Done? ==> o.chunk == GoodChunk(op, k.file, index, r)
    ensures o.Done? ==> o.output == if op.OpCopy? then Some(Slice(k.file, r)) else None
    ensures o.Fails? && o.output.Some? ==> op.OpCopy? && o.output == Some(Slice(k.file, r))
    ensures k.misaligned == old(k.misaligned)
    ensures op in {OpSha256, OpChunkSha256, OpCount, OpCopy} && old(k.Willing()) && (io.IoDirect? ==> OnBlock(r.offset))
      ==> o.Done?
  {
    match op
    case OpSha256 | OpChunkSha256 =>
      o := HashSlice(k, op, io, index, r);
    case OpCount =>
      o := CountSlice(k, io, index, r);
    case OpCopy =>
      o := CopySlice(k, io, index, r);
    case _ =>
      o := Fails("worker does not implement " + OpText(op), None);
  }

  method HashSlice(k: Kernel, op: Op, io: Io, index: nat, r: ByteRange) returns (o: Outcome)
    requires k.page > 0 && r.offset + r.length <= |k.file| && op in {OpSha256, OpChunkSha256}
    modifies k
    ensures o.Done? ==> o.chunk == GoodChunk(op, k.file, index, r)
    ensures o.output == None
    ensures k.misaligned == old(k.misaligned)
    ensures old(k.Willing()) && (io.IoDirect? ==> OnBlock(r.offset)) ==> o.Done?
  {
    hide Kernel.Willing, Fips180.Digest, Sha256.Valid;
    var ctx := new Sink(HashSink, Slice(k.file, r));
    if r.length > 0 {
      var ok, err := FeedRange(k, io, r.offset, r.length, ctx);
      if !ok {
        return Fails(err, None);
      }
    }
    assert ctx.seen == Slice(k.file, r);
    var dig := ctx.hash.Final();
    var hex := HexOf(dig[..]);
    o := Done(ChunkResult(index, true, r.offset, r.length, r.length, 0, hex, ""), None);
  }

  method CountSlice(k: Kernel, io: Io, index: nat, r: ByteRange) returns (o: Outcome)
    requires k.page > 0 && r.offset + r.length <= |k.file| < U64
    modifies k
    ensures o.Done? ==> o.chunk == GoodChunk(OpCount, k.file, index, r)
    ensures o.output == None
    ensures k.misaligned == old(k.misaligned)
    ensures old(k.Willing()) && (io.IoDirect? ==> OnBlock(r.offset)) ==> o.Done?
  {
    hide Kernel.Willing, Sha256.Valid, ByteSum;
    var ctx := new Sink(CountSink, Slice(k.file, r));
    if r.length > 0 {
      var ok, err := FeedRange(k, io, r.offset, r.length, ctx);
      if !ok {
        return Fails(err, None);
      }
    }
    assert ctx.seen == Slice(k.file, r);
    if ctx.bytes != r.length {
      return Fails("count shortfall", None);
    }
    o := Done(ChunkResult(index, true, r.offset, r.length, ctx.bytes, ctx.sum, "", ""), None);
  }

  /**
   * The copy goes to a temporary file that publish_file syncs and renames to `output` before the slot says ok. If only
   * the fsync of the directory fails, the complete output is in place although the copy has failed.
   */
  method CopySlice(k: Kernel, io: Io, index: nat, r: ByteRange) returns (o: Outcome)
    requires k.page > 0 && r.offset + r.length <= |k.file| < U64
    modifies k
    ensures o.Done? ==> o.chunk == GoodChunk(OpCopy, k.file, index, r) && o.output.Some?
    ensures o.output.Some? ==> o.output == Some(Slice(k.file, r))
    ensures k.misaligned == old(k.misaligned)
    ensures old(k.Willing()) && (io.IoDirect? ==> OnBlock(r.offset)) ==> o.Done?
  {
    hide Kernel.Willing, Sha256.Valid;
    var dirOk := k.Call();
    if !dirOk {
      return Fails("open job dir", None);
    }
    var tmpOk := k.Call();
    if !tmpOk {
      return Fails("open output temp", None);
    }
    var ctx := new Sink(CopySink, Slice(k.file, r));
    if r.length > 0 {
      var ok, err := FeedRange(k, io, r.offset, r.length, ctx);
      if !ok {
        return Fails(err, None);
      }
    }
    assert ctx.seen == Slice(k.file, r);
    var synced := k.Call();
    if !synced {
      return Fails("fsync output temp", None);
    }
    var renamed := k.Call();
    if !renamed {
      return Fails("renameat2 output", None);
    }
    var dirSynced := k.Call();
    if !dirSynced {
      return Fails("fsync job directory", Some(ctx.out.content));
    }
    o := Done(ChunkResult(index, true, r.offset, r.length, ctx.bytes, 0, "", ""), Some(ctx.out.content));
  }

  /** The loop of to_hex. */
  method HexOf(dig: seq<byte>) returns (s: string)
    ensures s == HexText(dig)
  {
    s := "";
    for i := 0 to |dig|
      invariant s == HexText(dig[..i])
    {
      assert dig[..i + 1][..i] == dig[..i];
      s := s + [HEX[dig[i] as int / 16]] + [HEX[dig[i] as int % 16]];
    }
    assert dig[..|dig|] == dig;
  }
}
