/** The data path of a worker: feed_range, the three sinks and write_all of worker.cpp and store.cpp. */
module Reader {
  import opened Base
  import opened MetaCodec
  import opened Sha256Stream
  import Ranges

  const DIRECT_ALIGN := 4096
  const BUFFER := 0x10_0000

  // ---------- the kernel calls the data path makes ----------

  /** What the kernel answers to one call: EINTR, another error, or `n` bytes (0: as many as were asked for). */
  datatype Answer = Interrupted | Refused | Gives(n: nat)

  datatype ReadResult = Data(bytes: seq<byte>) | ReadInterrupted | ReadError

  /**
   * An input file that does not change, and a script of answers; past its end every call succeeds in full.
   * `misaligned` counts the O_DIRECT requests that broke the alignment rule.
   */
  class Kernel {
    const file: seq<byte>
    const page: nat
    var script: seq<Answer>
    var misaligned: nat

    constructor (file: seq<byte>, page: nat, script: seq<Answer>)
      ensures this.file == file && this.page == page && this.script == script && misaligned == 0
    {
      this.file, this.page, this.script, misaligned := file, page, script, 0;
    }

    /** Nothing still to come is refused: calls are at most interrupted or cut short. */
    ghost predicate Willing()
      reads this`script
    {
      forall i :: 0 <= i < |script| ==> script[i] != Refused && script[i] != Gives(0)
    }

    method Next() returns (a: Answer)
      modifies this`script
      ensures old(Willing()) ==> Willing() && !a.Refused? && (old(script) != [] ==> a != Gives(0))
      ensures script == if old(script) == [] then [] else old(script)[1..]
      ensures a == if old(script) == [] then Gives(0) else old(script)[0]
    {
      if script == [] {
        return Gives(0);
      }
      a := script[0];
      script := script[1..];
    }

    /** A call that only succeeds or fails: open, openat, mmap, posix_memalign, fsync. */
    method Call() returns (ok: bool)
      modifies this`script
      ensures old(Willing()) ==> Willing() && ok
    {
      var a := Next();
      ok := !a.Refused?;
    }

    /** pread: at most `want` bytes of the file at `at`, and none only at the end of the file. */
    method PRead(at: nat, want: nat) returns (r: ReadResult)
      requires want > 0
      modifies this`script
      ensures r.Data? ==> Served(at, want, r.bytes)
      ensures |script| <= |old(script)| && (r.ReadInterrupted? ==> |script| < |old(script)|)
      ensures old(Willing()) ==> Willing() && !r.ReadError?
    {
      var a := Next();
      match a
      case Interrupted => r := ReadInterrupted;
      case Refused => r := ReadError;
      case Gives(n) =>
        if at >= |file| {
          return Data([]);
        }
        var most := if |file| - at < want then |file| - at else want;
        var k := if 0 < n < most then n else most;
        r := Data(file[at..at + k]);
    }

    /**
     * pread on the O_DIRECT descriptor, into the aligned buffer at `bufAt`. An unaligned request is EINVAL;
     * a short read is a whole number of blocks unless it ends at the end of the file.
     */
    method PReadDirect(at: nat, want: nat, bufAt: nat) returns (r: ReadResult)
      requires want > 0
      modifies this`script, this`misaligned
      ensures misaligned == if Aligned(at, want, bufAt) then old(misaligned) else old(misaligned) + 1
      ensures r.Data? ==> Served(at, want, r.bytes)
      ensures r.Data? && at + want <= |file| ==> OnBlock(|r.bytes|)
      ensures |script| <= |old(script)| && (r.ReadInterrupted? ==> |script| < |old(script)|)
      ensures old(Willing()) ==> Willing() && (Aligned(at, want, bufAt) ==> !r.ReadError?)
    {
      if !Aligned(at, want, bufAt) {
        misaligned := misaligned + 1;
        return ReadError;
      }
      r := PRead(at, want);
      if r.Data? && |r.bytes| < want && at + |r.bytes| < |file| {
        var k := |r.bytes| - |r.bytes| % DIRECT_ALIGN;
        var most := if |file| - at < want then |file| - at else want;
        r := Data(file[at..at + if k == 0 then most else k]);
      }
    }

    /** mmap of [at, at + len) of the file. The offset has to be a multiple of the page size. */
    method Map(at: nat, len: nat) returns (r: Option<seq<byte>>)
      requires page > 0 && at % page == 0 && at + len <= |file|
      modifies this`script
      ensures r.Some? ==> r.value == file[at..at + len]
      ensures old(Willing()) ==> Willing() && r.Some?
    {
      var ok := Call();
      r := if ok then Some(file[at..at + len]) else None;
    }

    /** `bytes` are the file at `at`, no more than asked for, and empty only past the end. */
    ghost predicate Served(at: nat, want: nat, bytes: seq<byte>) {
      && |bytes| <= want
      && (bytes == [] ==> at >= |file|)
      && (bytes != [] ==> at + |bytes| <= |file| && bytes == file[at..at + |bytes|])
    }
  }

  /** File offset, length and place in the aligned buffer of one O_DIRECT read. */
  predicate Aligned(at: nat, len: nat, bufAt: nat) {
    OnBlock(at) && OnBlock(len) && OnBlock(bufAt)
  }

  predicate OnBlock(n: int) { n % DIRECT_ALIGN == 0 }

  lemma BlockSums(a: int, b: int)
    requires OnBlock(a) && OnBlock(b)
    ensures OnBlock(a + b) && OnBlock(a - b) && OnBlock(0) && OnBlock(BUFFER)
  {
  }

  /** A file being written. */
  class OutFile {
    var content: seq<byte>

    constructor ()
      ensures content == []
    {
      content := [];
    }

    /** write_all: retries after EINTR and after short writes, and fails on an error or on a write of nothing. */
    method WriteAll(k: Kernel, data: seq<byte>) returns (ok: bool)
      modifies this, k`script
      ensures old(content) <= content <= old(content) + data
      ensures ok ==> content == old(content) + data
      ensures old(k.Willing()) ==> k.Willing() && ok
    {
      var left := |data|;
      while left > 0
        invariant 0 <= left <= |data|
        invariant content == old(content) + data[..|data| - left]
        invariant old(k.Willing()) ==> k.Willing()
        decreases left, |k.script|
      {
        var more := k.script != [];
        var a := k.Next();
        match a
        case Interrupted =>
        case Refused =>
          return false;
        case Gives(n) =>
          var w := if n < left then n else left;
          if more && w == 0 {
            return false;
          }
          w := if w == 0 then left else w;
          content := content + data[|data| - left..|data| - left + w];
          assert data[..|data| - left] + data[|data| - left..|data| - left + w] == data[..|data| - left + w];
          left := left - w;
      }
      assert data[..|data|] == data;
      return true;
    }
  }

  // ---------- sinks ----------

  datatype SinkKind = HashSink | CountSink | CopySink

  /** The sum of the bytes, as a number. */
  function ByteSum(s: seq<byte>): nat {
    if s == [] then 0 else ByteSum(s[..|s| - 1]) + s[|s| - 1] as nat
  }

  /** Arithmetic on a uint64_t. */
  function Wrap(n: nat): nat { n % U64 }

  lemma WrapAdd(a: nat, b: nat)
    ensures Wrap(Wrap(a) + b) == Wrap(a + b)
  {
  }

  /**
   * HashCtx, CountCtx or CopyCtx with its function. `seen` is every byte accepted so far, `goal` what the
   * worker is to see in all.
   */
  class Sink {
    const kind: SinkKind
    const hash: Sha256
    const out: OutFile
    var bytes: nat
    var sum: nat
    ghost var seen: seq<byte>
    ghost var goal: seq<byte>

    ghost predicate Valid()
      reads this, hash, hash.h, hash.buf, out
    {
      && seen <= goal
      && match kind {
           case HashSink => hash.Valid() && hash.seen == seen
           case CountSink => bytes == Wrap(|seen|) && sum == Wrap(ByteSum(seen))
           case CopySink => bytes == Wrap(|seen|) && out.content == seen
         }
    }

    /** What has reached the hash, the counters or the output file. */
    ghost function Delivered(): seq<byte>
      reads this, out
    {
      if kind.CopySink? then out.content else seen
    }

    /** A sink in good order has been given a prefix of its goal. */
    lemma DeliveredIsPrefix()
      requires Valid()
      ensures seen <= goal && Delivered() <= goal
    {
      hide Sha256.Valid, ByteSum;
    }

    constructor (kind: SinkKind, ghost goal: seq<byte>)
      ensures this.kind == kind && this.goal == goal && Valid() && seen == [] && Delivered() == []
      ensures fresh(hash) && fresh(hash.h) && fresh(hash.buf) && fresh(out)
    {
      hide *;
      var hash := new Sha256();
      var out := new OutFile();
      this.kind, this.hash, this.out := kind, hash, out;
      bytes, sum, seen := 0, 0, [];
      this.goal := goal;
      new;
      NothingSeen();
    }

    lemma NothingSeen()
      requires hash.Valid() && hash.seen == [] && bytes == 0 && sum == 0 && seen == [] && out.content == []
      ensures Valid() && Delivered() == []
    {
      hide Sha256.Valid;
      assert seen <= goal;
    }

    /** The next bytes of the goal. A copy that fails part-way has still written a prefix of the goal. */
    method Accept(k: Kernel, data: seq<byte>) returns (ok: bool)
      requires Valid() && seen + data <= goal
      modifies this`bytes, this`sum, this`seen, hash, hash.h, hash.buf, out, k`script
      ensures Delivered() <= goal
      ensures ok ==> Valid() && seen == old(seen) + data
      ensures old(k.Willing()) ==> k.Willing() && ok
    {
      hide Sha256.Valid, ByteSum, Kernel.Willing, Wrap;
      WrapAdd(|seen|, |data|);
      match kind {
        case HashSink =>
          hash.Update(data);
        case CountSink =>
          sum := AddBytes(sum, seen, data);
          bytes := Wrap(bytes + |data|);
        case CopySink =>
          ok := out.WriteAll(k, data);
          if !ok {
            return;
          }
          bytes := Wrap(bytes + |data|);
      }
      ok := true;
      seen := seen + data;
    }
  }

  /** The loop of count_sink: every byte is added, modulo 2^64. */
  method AddBytes(sum: nat, ghost before: seq<byte>, data: seq<byte>) returns (s: nat)
    requires sum == Wrap(ByteSum(before))
    ensures s == Wrap(ByteSum(before + data))
  {
    hide Wrap;
    s := sum;
    assert before + data[..0] == before;
    for i := 0 to |data|
      invariant s == Wrap(ByteSum(before + data[..i]))
    {
      assert (before + data[..i + 1])[..|before| + i] == before + data[..i];
      WrapAdd(ByteSum(before + data[..i]), data[i] as nat);
      s := Wrap(s + data[i] as nat);
    }
    assert data[..|data|] == data;
  }

  // ---------- feed_range ----------

  /** The sink was set up to see exactly the range, and has seen none of it yet. */
  ghost predicate Armed(k: Kernel, sink: Sink, offset: nat, length: nat)
    reads sink, sink.hash, sink.hash.h, sink.hash.buf, sink.out
  {
    sink.Valid() && sink.seen == [] && |sink.goal| == length && Matches(k.file, offset, sink.goal)
  }

  /** `goal` is the range of the file as far as the file goes. */
  ghost predicate Matches(file: seq<byte>, offset: nat, goal: seq<byte>) {
    forall i :: 0 <= i < |goal| && offset + i < |file| ==> goal[i] == file[offset + i]
  }

  /**
   * feed_range: three ways of reading the same bytes. Whatever happens the sink has only ever been given a
   * prefix of its goal, and on success the range exists and all of it was seen, in order, once. A mapping of
   * a file that shrank would show zeros or kill the worker, so for mmap the range has to exist; the other
   * two find out by reading. No O_DIRECT request on an existing range is unaligned. If nothing is refused,
   * interruptions and short reads alone never make it fail.
   */
  method FeedRange(k: Kernel, io: Io, offset: nat, length: nat, sink: Sink) returns (ok: bool, err: string)
    requires Armed(k, sink, offset, length) && k.page > 0
    requires io.IoMmap? ==> offset + length <= |k.file|
    modifies k, sink`bytes, sink`sum, sink`seen, sink.hash, sink.hash.h, sink.hash.buf, sink.out
    ensures sink.Delivered() <= sink.goal
    ensures ok ==> sink.Valid() && sink.seen == sink.goal && (length > 0 ==> offset + length <= |k.file|)
    ensures offset + length <= |k.file| ==> k.misaligned == old(k.misaligned)
    ensures old(k.Willing()) && offset + length <= |k.file| && (io.IoDirect? ==> OnBlock(offset)) ==> ok && k.Willing()
  {
    hide Sha256.Valid, ByteSum, Kernel.Willing, OnBlock;
    if length == 0 {
      return true, "";
    }
    if io.IoMmap? {
      ok, err := FeedMapped(k, offset, length, sink);
    } else if io.IoDirect? {
      ok, err := FeedDirect(k, offset, length, sink);
    } else {
      ok, err := FeedBuffered(k, offset, length, sink);
    }
  }

  /** mmap: the mapping starts at a page boundary, the bytes `prefix` further on. */
  method FeedMapped(k: Kernel, offset: nat, length: nat, sink: Sink) returns (ok: bool, err: string)
    requires Armed(k, sink, offset, length) && k.page > 0
    requires 0 < length && offset + length <= |k.file|
    modifies k`script, sink`bytes, sink`sum, sink`seen, sink.hash, sink.hash.h, sink.hash.buf, sink.out
    ensures sink.Delivered() <= sink.goal
    ensures ok ==> sink.Valid() && sink.seen == sink.goal
    ensures old(k.Willing()) ==> ok && k.Willing()
  {
    hide Kernel.Willing;
    hide Sha256.Valid, ByteSum;
    ok := k.Call();
    if !ok {
      return false, "open input";
    }
    var mapOff := PageStart(offset, k.page);
    var prefix := offset - mapOff;
    var mapLen := prefix + length;
    var mapped := k.Map(mapOff, mapLen);
    if mapped.None? {
      return false, "mmap input";
    }
    MappedView(k.file, mapOff, mapLen, prefix, sink.goal);
    ok := sink.Accept(k, mapped.value[prefix..prefix + length]);
    err := if ok then "" else "write output";
  }

  /** offset & ~(page - 1), for a page size that is a power of two: the last page boundary at or before `offset`. */
  function PageStart(offset: nat, page: nat): (r: nat)
    requires page > 0
    ensures r % page == 0 && r <= offset < r + page
  {
    Ranges.MultipleMod(offset / page, page, 0);
    page * (offset / page)
  }

  /** read: pread at an advancing offset; every short read goes to the sink as it is. */
  method FeedBuffered(k: Kernel, offset: nat, length: nat, sink: Sink) returns (ok: bool, err: string)
    requires Armed(k, sink, offset, length) && 0 < length
    modifies k`script, sink`bytes, sink`sum, sink`seen, sink.hash, sink.hash.h, sink.hash.buf, sink.out
    ensures sink.Delivered() <= sink.goal
    ensures ok ==> sink.Valid() && sink.seen == sink.goal && offset + length <= |k.file|
    ensures old(k.Willing()) && offset + length <= |k.file| ==> ok && k.Willing()
  {
    hide Kernel.Willing, Sink.Valid, Sink.Delivered, Matches;
    sink.DeliveredIsPrefix();
    ok := k.Call();
    if !ok {
      return false, "open input";
    }
    var left, at: nat := length, offset;
    while left > 0
      invariant 0 <= left <= length && at + left == offset + length && (left < length ==> at <= |k.file|)
      invariant sink.Valid() && |sink.seen| == length - left
      invariant old(k.Willing()) ==> k.Willing()
      decreases left, |k.script|
    {
      sink.DeliveredIsPrefix();
      var want := if BUFFER < left then BUFFER else left;
      var r := k.PRead(at, want);
      match r {
        case ReadInterrupted =>
        case ReadError =>
          return false, "pread";
        case Data(bytes) =>
          if bytes == [] {
            return false, "unexpected EOF";
          }
          NextBytes(k.file, offset, sink.goal, sink.seen, bytes);
          ok := sink.Accept(k, bytes);
          if !ok {
            return false, "write output";
          }
          at, left := at + |bytes|, left - |bytes|;
      }
    }
    sink.DeliveredIsPrefix();
    return true, "";
  }

  /** direct: whole blocks through the O_DIRECT descriptor, the unaligned tail through the page cache. */
  method FeedDirect(k: Kernel, offset: nat, length: nat, sink: Sink) returns (ok: bool, err: string)
    requires Armed(k, sink, offset, length) && 0 < length
    modifies k, sink`bytes, sink`sum, sink`seen, sink.hash, sink.hash.h, sink.hash.buf, sink.out
    ensures sink.Delivered() <= sink.goal
    ensures ok ==> sink.Valid() && sink.seen == sink.goal && offset + length <= |k.file|
    ensures offset + length <= |k.file| ==> k.misaligned == old(k.misaligned)
    ensures old(k.Willing()) && offset + length <= |k.file| && OnBlock(offset) ==> ok && k.Willing()
  {
    hide Sha256.Valid, ByteSum, Kernel.Willing;
    if offset % DIRECT_ALIGN != 0 {
      return false, "O_DIRECT range is not 4096-aligned";
    }
    ok := k.Call();
    if !ok {
      return false, "open O_DIRECT";
    }
    ok := k.Call();
    if !ok {
      return false, "open input tail";
    }
    var aligned := length - length % DIRECT_ALIGN;
    if aligned > 0 {
      ok := k.Call();
      if !ok {
        return false, "posix_memalign failed";
      }
    }
    ok, err := FeedBlocks(k, offset, aligned, sink);
    if !ok {
      return;
    }
    if aligned < length {
      var tail := Fill(k, offset + aligned, length - aligned, false);
      if tail.None? {
        return false, "tail not read";
      }
      NextBytes(k.file, offset, sink.goal, sink.seen, tail.value);
      ok := sink.Accept(k, tail.value);
      err := if ok then "" else "write output";
    }
  }

  /** The outer loop of the direct path: up to a mebibyte at a time. */
  method FeedBlocks(k: Kernel, offset: nat, aligned: nat, sink: Sink) returns (ok: bool, err: string)
    requires sink.Valid() && sink.seen == [] && aligned <= |sink.goal| && Matches(k.file, offset, sink.goal)
    requires OnBlock(offset) && OnBlock(aligned)
    modifies k, sink`bytes, sink`sum, sink`seen, sink.hash, sink.hash.h, sink.hash.buf, sink.out
    ensures sink.Delivered() <= sink.goal
    ensures ok ==> sink.Valid() && |sink.seen| == aligned && (aligned > 0 ==> offset + aligned <= |k.file|)
    ensures offset + aligned <= |k.file| ==> k.misaligned == old(k.misaligned)
    ensures old(k.Willing()) && offset + aligned <= |k.file| ==> ok && k.Willing()
  {
    BlockSums(offset, aligned);
    hide OnBlock, Sink.Valid, Sink.Delivered, Kernel.Willing, Matches;
    sink.DeliveredIsPrefix();
    var done := 0;
    while done < aligned
      invariant done <= aligned && OnBlock(done) && (done > 0 ==> offset + done <= |k.file|)
      invariant sink.Valid() && |sink.seen| == done
      invariant offset + aligned <= |k.file| ==> k.misaligned == old(k.misaligned)
      invariant old(k.Willing()) && offset + aligned <= |k.file| ==> k.Willing()
    {
      BlockSums(aligned, done);
      var want := if BUFFER < aligned - done then BUFFER else aligned - done;
      ok, err := FeedBatch(k, offset, done, want, sink);
      if !ok {
        return;
      }
      BlockSums(done, want);
      done := done + want;
    }
    sink.DeliveredIsPrefix();
    return true, "";
  }

  /** One turn of the outer loop: `want` bytes, `done` bytes into the range. */
  method FeedBatch(k: Kernel, offset: nat, done: nat, want: nat, sink: Sink) returns (ok: bool, err: string)
    requires sink.Valid() && |sink.seen| == done && 0 < want && done + want <= |sink.goal|
    requires Matches(k.file, offset, sink.goal) && OnBlock(offset) && OnBlock(done) && OnBlock(want)
    modifies k, sink`bytes, sink`sum, sink`seen, sink.hash, sink.hash.h, sink.hash.buf, sink.out
    ensures sink.Delivered() <= sink.goal
    ensures ok ==> sink.Valid() && |sink.seen| == done + want && offset + done + want <= |k.file|
    ensures offset + done + want <= |k.file| ==> k.misaligned == old(k.misaligned)
    ensures old(k.Willing()) && offset + done + want <= |k.file| ==> ok && k.Willing()
  {
    BlockSums(offset, done);
    hide OnBlock, Sink.Valid, Sink.Delivered, Kernel.Willing, Matches;
    sink.DeliveredIsPrefix();
    var buf := Fill(k, offset + done, want, true);
    if buf.None? {
      return false, "pread O_DIRECT";
    }
    NextBytes(k.file, offset, sink.goal, sink.seen, buf.value);
    ok := sink.Accept(k, buf.value);
    err := if ok then "" else "write output";
  }

  /** The inner loop: read until `want` bytes are there, through one descriptor or the other. */
  method Fill(k: Kernel, at: nat, want: nat, viaDirect: bool) returns (buf: Option<seq<byte>>)
    requires 0 < want
    requires viaDirect ==> OnBlock(at) && OnBlock(want)
    modifies k
    ensures buf.Some? ==> at + want <= |k.file| && buf.value == k.file[at..at + want]
    ensures at + want <= |k.file| ==> k.misaligned == old(k.misaligned)
    ensures old(k.Willing()) ==> k.Willing() && (at + want <= |k.file| ==> buf.Some?)
  {
    if viaDirect {
      BlockSums(at, want);
    }
    hide OnBlock, Kernel.Willing;
    var got: seq<byte> := [];
    while |got| < want
      invariant |got| <= want
      invariant got != [] ==> at + |got| <= |k.file| && got == k.file[at..at + |got|]
      invariant at + want <= |k.file| ==> k.misaligned == old(k.misaligned) && (viaDirect ==> OnBlock(|got|))
      invariant old(k.Willing()) ==> k.Willing()
      decreases want - |got|, |k.script|
    {
      var r: ReadResult;
      if viaDirect {
        if OnBlock(|got|) {
          BlockSums(at, |got|);
          BlockSums(want, |got|);
        }
        r := k.PReadDirect(at + |got|, want - |got|, |got|);
      } else {
        r := k.PRead(at + |got|, want - |got|);
      }
      match r {
        case ReadInterrupted =>
        case ReadError =>
          return None;
        case Data(bytes) =>
          if bytes == [] {
            return None;
          }
          Joined(k.file, at, got, bytes);
          if OnBlock(|got|) && OnBlock(|bytes|) {
            BlockSums(|got|, |bytes|);
          }
          got := got + bytes;
      }
    }
    return Some(got);
  }

  lemma Joined(file: seq<byte>, at: nat, got: seq<byte>, more: seq<byte>)
    requires at + |got| + |more| <= |file|
    requires got != [] ==> got == file[at..at + |got|]
    requires more == file[at + |got|..at + |got| + |more|]
    ensures got + more == file[at..at + |got + more|]
  {
  }

  /** Skipping the prefix of the mapping gives the range. */
  lemma MappedView(file: seq<byte>, mapOff: nat, mapLen: nat, prefix: nat, goal: seq<byte>)
    requires mapOff + mapLen <= |file| && mapLen == prefix + |goal| && Matches(file, mapOff + prefix, goal)
    ensures file[mapOff..mapOff + mapLen][prefix..mapLen] == goal
  {
    forall i | 0 <= i < |goal| ensures file[mapOff..mapOff + mapLen][prefix + i] == goal[i] {
      assert goal[i] == file[mapOff + prefix + i];
    }
  }

  /** Bytes read where the sink left off are the next bytes of its goal. */
  lemma NextBytes(file: seq<byte>, offset: nat, goal: seq<byte>, seen: seq<byte>, more: seq<byte>)
    requires Matches(file, offset, goal) && seen <= goal && |seen| + |more| <= |goal|
    requires offset + |seen| + |more| <= |file|
    requires more == file[offset + |seen|..offset + |seen| + |more|]
    ensures seen + more <= goal
  {
    forall i | 0 <= i < |more| ensures more[i] == goal[|seen| + i] {
      assert more[i] == file[offset + (|seen| + i)];
    }
  }
}
