/** How a job is judged: results_ok of controller.cpp, and what it accepts in terms of the input file. */
module Results {
  import opened Base
  import opened Text
  import opened MetaCodec
  import opened Procs
  import opened Ranges
  import opened Worker
  import Reader
  import Fips180
  import P = Protocol

  /** What the controller reads of the shared region: nchunks, the value its acquire load returned, the slots. */
  datatype Region = Region(nchunks: nat, done: nat, chunks: seq<ChunkResult>)

  /** Everything results_ok looks at; of `output` its size, or why it cannot be inspected. */
  datatype Evidence = Evidence(op: Op, hows: seq<WaitStatus>, shm: Option<Region>, bytes: uint64,
                               outputSize: Option<nat>, outputError: string)

  datatype Verdict = Good(body: string) | Rejected(why: string)

  predicate WellShaped(e: Evidence) {
    e.shm.Some? ==> |e.shm.value.chunks| == P.MAX_WORKERS && 0 < e.shm.value.nchunks <= P.MAX_WORKERS
  }

  // ---------- the code ----------

  /** results_ok. */
  method ResultsOk(e: Evidence) returns (v: Verdict)
    requires WellShaped(e)
    ensures v == Judge(e)
  {
    hide Dec, HowText, BytesTotal, ChunkHeader, ChunkLines;
    if e.op.OpExec? {
      if |e.hows| != 1 || e.hows[0] != Exited(0) {
        return Rejected(if e.hows == [] then "exec produced no child" else HowText(e.hows[0]));
      }
      return Good("");
    }
    if e.shm.None? {
      return Rejected("missing shared region");
    }
    var shm := e.shm.value;
    if shm.done < shm.nchunks {
      return Rejected("published " + Dec(shm.done) + " of " + Dec(shm.nchunks) + " chunks");
    }
    for i := 0 to |e.hows|
      invariant forall k :: 0 <= k < i ==> e.hows[k] == Exited(0)
    {
      if e.hows[i] != Exited(0) {
        assert FirstUnclean(e.hows) == i;
        return Rejected("worker " + HowText(e.hows[i]));
      }
    }
    var out := "";
    match e.op {
      case OpSha256 =>
        if !shm.chunks[0].ok || shm.chunks[0].hex == "" {
          return Rejected(ErrorOr(shm.chunks[0], "empty digest"));
        }
        out := shm.chunks[0].hex + "\n";
      case OpChunkSha256 =>
        v := ChunkReport(shm, e.bytes);
        return;
      case OpCount =>
        v := CountReport(shm, e.bytes);
        return;
      case OpCopy =>
        if !shm.chunks[0].ok {
          return Rejected(ErrorOr(shm.chunks[0], "copy failed"));
        }
        if e.outputSize.None? {
          return Rejected("copy output missing: " + e.outputError);
        }
        if e.outputSize.value != e.bytes {
          return Rejected("output size " + Dec(e.outputSize.value) + " != input " + Dec(e.bytes));
        }
      case _ =>
        return Rejected("unknown operation");
    }
    return Good(out);
  }

  const BAD_SUM: string := "chunk bytes do not add " + "up to the file size"

  /** The chunk-sha256 branch: one line for each slice, until a slot is not ok. */
  method ChunkReport(shm: Region, bytes: uint64) returns (v: Verdict)
    requires shm.nchunks <= |shm.chunks|
    ensures v.Good? <==> AllOk(shm, shm.nchunks) && BytesTotal(shm.chunks, shm.nchunks) % U64 == bytes
    ensures v.Good? ==> v.body == ChunkHeader(bytes, shm.nchunks) + ChunkLines(shm.chunks, shm.nchunks)
    ensures v.Rejected? ==> v.why == ChunksWhy(shm)
  {
    hide ChunkHeader, ChunkLine;
    var total := 0;
    var out := ChunkHeader(bytes, shm.nchunks);
    for i := 0 to shm.nchunks
      invariant AllOk(shm, i)
      invariant total == BytesTotal(shm.chunks, i) % U64
      invariant out == ChunkHeader(bytes, shm.nchunks) + ChunkLines(shm.chunks, i)
    {
      var ch := shm.chunks[i];
      if !ch.ok {
        assert FirstBad(shm, shm.nchunks) == i;
        return Rejected(ErrorOr(ch, "chunk failed"));
      }
      total := (total + ch.bytes) % U64;
      out := out + ChunkLine(i, ch);
    }
    if total != bytes {
      return Rejected(BAD_SUM);
    }
    return Good(out);
  }

  /** The count branch. */
  method CountReport(shm: Region, bytes: uint64) returns (v: Verdict)
    requires shm.nchunks <= |shm.chunks|
    ensures v.Good? <==> AllOk(shm, shm.nchunks) && BytesTotal(shm.chunks, shm.nchunks) % U64 == bytes
    ensures v.Good? ==> v.body == Dec(bytes) + "\n"
    ensures v.Rejected? ==> v.why == CountWhy(shm, bytes)
  {
    hide Dec;
    var sum := 0;
    for i := 0 to shm.nchunks
      invariant AllOk(shm, i)
      invariant sum == BytesTotal(shm.chunks, i) % U64
    {
      if !shm.chunks[i].ok {
        assert FirstBad(shm, shm.nchunks) == i;
        return Rejected(ErrorOr(shm.chunks[i], "chunk failed"));
      }
      sum := (sum + shm.chunks[i].bytes) % U64;
    }
    if sum != bytes {
      return Rejected("count " + Dec(sum) + " != file size " + Dec(bytes));
    }
    return Good(Dec(sum) + "\n");
  }

  // ---------- what it accepts, and the text it produces ----------

  /** The first `n` slots are ok. */
  predicate AllOk(shm: Region, n: nat)
    requires n <= |shm.chunks|
  {
    forall k :: 0 <= k < n ==> shm.chunks[k].ok
  }

  function BytesTotal(chunks: seq<ChunkResult>, n: nat): nat
    requires n <= |chunks|
  {
    if n == 0 then 0 else BytesTotal(chunks, n - 1) + chunks[n - 1].bytes
  }

  function ChunkHeader(bytes: nat, nchunks: nat): string {
    "bytes " + Dec(bytes) + "\nchunks " + Dec(nchunks)
    + "\nnote each line is the sha256 of that slice, not of the whole file\n"
  }

  function ChunkLine(i: nat, ch: ChunkResult): string {
    Dec(i) + " " + Dec(ch.offset) + " " + Dec(ch.length) + " " + ch.hex + "\n"
  }

  function ChunkLines(chunks: seq<ChunkResult>, n: nat): string
    requires n <= |chunks|
  {
    if n == 0 then "" else ChunkLines(chunks, n - 1) + ChunkLine(n - 1, chunks[n - 1])
  }

  /** Every worker exited 0, every slot is published, and the operation's own check passes. */
  predicate Accepts(e: Evidence)
    requires WellShaped(e)
  {
    if e.op.OpExec? then e.hows == [Exited(0)]
    else
      && e.shm.Some?
      && e.shm.value.done >= e.shm.value.nchunks
      && (forall k :: 0 <= k < |e.hows| ==> e.hows[k] == Exited(0))
      && var shm := e.shm.value;
         match e.op {
           case OpSha256 => shm.chunks[0].ok && shm.chunks[0].hex != ""
           case OpChunkSha256 | OpCount =>
             && AllOk(shm, shm.nchunks)
             && BytesTotal(shm.chunks, shm.nchunks) % U64 == e.bytes
           case OpCopy => shm.chunks[0].ok && e.outputSize == Some(e.bytes)
           case _ => false
         }
  }

  function Body(e: Evidence): string
    requires WellShaped(e) && Accepts(e)
  {
    match e.op
    case OpSha256 => e.shm.value.chunks[0].hex + "\n"
    case OpChunkSha256 =>
      ChunkHeader(e.bytes, e.shm.value.nchunks) + ChunkLines(e.shm.value.chunks, e.shm.value.nchunks)
    case OpCount => Dec(e.bytes) + "\n"
    case _ => ""
  }

  /** The verdict of results_ok. */
  function Judge(e: Evidence): Verdict
    requires WellShaped(e)
  {
    if Accepts(e) then Good(Body(e)) else Rejected(Why(e))
  }

  function ErrorOr(ch: ChunkResult, otherwise: string): string {
    if ch.error != "" then ch.error else otherwise
  }

  /** The first process that did not exit 0. */
  function FirstUnclean(hows: seq<WaitStatus>): (k: nat)
    ensures k <= |hows| && (k < |hows| ==> hows[k] != Exited(0))
    ensures forall i :: 0 <= i < k ==> hows[i] == Exited(0)
  {
    if hows == [] then 0 else if hows[0] != Exited(0) then 0 else 1 + FirstUnclean(hows[1..])
  }

  /** The first of `n` slots that is not ok. */
  function FirstBad(shm: Region, n: nat): (k: nat)
    requires n <= |shm.chunks|
    ensures k <= n && (k < n ==> !shm.chunks[k].ok)
    ensures AllOk(shm, k)
  {
    if n == 0 then 0
    else var k := FirstBad(shm, n - 1); if k == n - 1 && shm.chunks[k].ok then n else k
  }

  function ChunksWhy(shm: Region): string
    requires shm.nchunks <= |shm.chunks|
  {
    var bad := FirstBad(shm, shm.nchunks);
    if bad < shm.nchunks then ErrorOr(shm.chunks[bad], "chunk failed")
    else BAD_SUM
  }

  function CountWhy(shm: Region, bytes: uint64): string
    requires shm.nchunks <= |shm.chunks|
  {
    var bad := FirstBad(shm, shm.nchunks);
    if bad < shm.nchunks then ErrorOr(shm.chunks[bad], "chunk failed")
    else "count " + Dec(BytesTotal(shm.chunks, shm.nchunks) % U64) + " != file size " + Dec(bytes)
  }

  /** The reason a rejection gives: the first check that failed. */
  function Why(e: Evidence): string
    requires WellShaped(e) && !Accepts(e)
  {
    if e.op.OpExec? then if e.hows == [] then "exec produced no child" else HowText(e.hows[0])
    else if e.shm.None? then "missing shared region"
    else
      var shm := e.shm.value;
      if shm.done < shm.nchunks then "published " + Dec(shm.done) + " of " + Dec(shm.nchunks) + " chunks"
      else if FirstUnclean(e.hows) < |e.hows| then "worker " + HowText(e.hows[FirstUnclean(e.hows)])
      else match e.op {
        case OpSha256 => ErrorOr(shm.chunks[0], "empty digest")
        case OpChunkSha256 => ChunksWhy(shm)
        case OpCount => CountWhy(shm, e.bytes)
        case OpCopy =>
          if !shm.chunks[0].ok then ErrorOr(shm.chunks[0], "copy failed")
          else if e.outputSize.None? then "copy output missing: " + e.outputError
          else "output size " + Dec(e.outputSize.value) + " != input " + Dec(e.bytes)
        case _ => "unknown operation"
      }
  }

  // ---------- end to end ----------

  /** The text a completed job leaves in `output`, as a function of the input file and its slices. */
  function SpecOutput(op: Op, file: seq<byte>, ranges: seq<ByteRange>): string
    requires forall i :: 0 <= i < |ranges| ==> ranges[i].offset + ranges[i].length <= |file|
  {
    match op
    case OpSha256 => HexText(Fips180.Digest(file)) + "\n"
    case OpCount => Dec(|file|) + "\n"
    case OpChunkSha256 => ChunkHeader(|file|, |ranges|) + SliceLines(file, ranges, |ranges|)
    case _ => ""
  }

  function SliceLines(file: seq<byte>, ranges: seq<ByteRange>, n: nat): string
    requires n <= |ranges|
    requires forall i :: 0 <= i < |ranges| ==> ranges[i].offset + ranges[i].length <= |file|
  {
    if n == 0 then ""
    else
      var r := ranges[n - 1];
      SliceLines(file, ranges, n - 1)
      + Dec(n - 1) + " " + Dec(r.offset) + " " + Dec(r.length) + " " + HexText(Fips180.Digest(Slice(file, r))) + "\n"
  }

  /** waitid reports a worker's exit. */
  ghost predicate Reported(p: P.Phase, h: WaitStatus) {
    match p
    case Gone(Code(n)) => n >= 0 && h == Exited(n)
    case Gone(Killed) => h.KilledBy? || h.DumpedBy?
    case _ => false
  }

  /**
   * What finalize sees of a run whose workers have all been reaped. Of the shared region it sees what its acquire
   * load of chunks_done makes visible: a slot that is not in its view can read as anything.
   */
  ghost predicate Watched(j: P.Job, s: P.State, hows: seq<WaitStatus>, shm: Region, outputSize: Option<nat>)
    requires P.ValidJob(j)
  {
    && P.Reachable(j, s) && P.Shape(j, s) && P.AllReaped(j, s)
    && |hows| == |j.ranges| && (forall i :: 0 <= i < |j.ranges| ==> Reported(s.phases[i], hows[i]))
    && shm.nchunks == |j.ranges| && |shm.chunks| == P.MAX_WORKERS
    && P.Enabled(j, s, P.Parent(P.Load(shm.done)))
    && (forall i :: 0 <= i < |j.ranges| && i in P.Next(j, s, P.Parent(P.Load(shm.done))).parentView ==>
          shm.chunks[i] == s.slots[i])
    && (s.output.Some? ==> outputSize == Some(|s.output.value|))
  }

  /** The evidence of a job on the file `j.file`. */
  ghost predicate Gathered(j: P.Job, s: P.State, e: Evidence)
    requires P.ValidJob(j)
  {
    && e.op == j.op && e.bytes == |j.file| && e.shm.Some?
    && Watched(j, s, e.hows, e.shm.value, e.outputSize)
  }

  /**
   * Clean success wins: whatever order the workers ran in and whenever anything was killed, results_ok accepts
   * exactly when every worker exited 0, and then the output is the specified function of the whole input file.
   */
  lemma CompletedMeansCorrect(j: P.Job, s: P.State, e: Evidence)
    requires P.ValidJob(j) && Gathered(j, s, e) && WellShaped(e)
    ensures Accepts(e) <==> P.AllExitedZero(j, s)
    ensures Accepts(e) ==> Body(e) == SpecOutput(j.op, j.file, j.ranges)
    ensures Accepts(e) && j.op.OpCopy? ==> s.output == Some(j.file)
  {
    P.RangesFit(j);
    hide P.ValidJob, P.Reachable, P.Enabled, P.Next, Body, SpecOutput;
    P.ReachableInv(j, s);
    if P.AllExitedZero(j, s) || Accepts(e) {
      forall i | 0 <= i < |j.ranges| ensures s.phases[i] == P.Gone(P.Code(0)) && e.hows[i] == Exited(0) {
        assert Reported(s.phases[i], e.hows[i]);
      }
      hide P.Inv;
      P.CleanExitMeansCleanSlots(j, s);
      VisibleSlots(j, s, e);
      CleanSlotsAreAccepted(j, s, e);
    }
  }

  /** After a clean exit the load can only return nchunks, and then every slot is in view. */
  lemma VisibleSlots(j: P.Job, s: P.State, e: Evidence)
    requires P.ValidJob(j) && Gathered(j, s, e) && P.Inv(j, s) && s.parentSeen == |s.done| == |j.ranges|
    ensures e.shm.value.done == |j.ranges|
    ensures forall i :: 0 <= i < |j.ranges| ==> e.shm.value.chunks[i] == s.slots[i]
  {
    P.RangesFit(j);
    hide P.ValidJob, P.Inv, P.Next, P.Reachable;
    forall i | 0 <= i < |j.ranges| ensures e.shm.value.chunks[i] == s.slots[i] {
      P.LoadSeesAllSlots(j, s, i);
    }
  }

  /** The slices lie inside the file. */
  ghost predicate InFile(ranges: seq<ByteRange>, file: seq<byte>) {
    forall i :: 0 <= i < |ranges| ==> ranges[i].offset + ranges[i].length <= |file|
  }

  /** Every worker exited 0 and published the result of its slice. */
  ghost predicate CleanEvidence(op: Op, file: seq<byte>, ranges: seq<ByteRange>, e: Evidence) {
    && e.op == op && e.bytes == |file| && InFile(ranges, file)
    && (forall i :: 0 <= i < |e.hows| ==> e.hows[i] == Exited(0))
    && e.shm.Some? && e.shm.value.done == e.shm.value.nchunks == |ranges| && 0 < |ranges| <= |e.shm.value.chunks|
    && (forall i :: 0 <= i < |ranges| ==> e.shm.value.chunks[i] == GoodChunk(op, file, i, ranges[i]))
  }

  lemma CleanSlotsAreAccepted(j: P.Job, s: P.State, e: Evidence)
    requires P.ValidJob(j) && Gathered(j, s, e) && WellShaped(e) && P.Shape(j, s)
    requires forall i :: 0 <= i < |j.ranges| ==> e.hows[i] == Exited(0)
    requires e.shm.value.done == |j.ranges|
    requires forall i :: 0 <= i < |j.ranges| ==> e.shm.value.chunks[i] == s.slots[i]
    requires forall i :: 0 <= i < |j.ranges| ==> s.slots[i] == GoodChunk(j.op, j.file, i, j.ranges[i])
    requires j.op.OpCopy? ==> s.output == Some(j.file)
    ensures Accepts(e) && Body(e) == SpecOutput(j.op, j.file, j.ranges)
  {
    hide GoodChunk, P.Reachable, P.Enabled, P.Next, Partition;
    assert CleanEvidence(j.op, j.file, j.ranges, e);
    if j.op.OpSha256? {
      WholeSlice(j);
    }
    hide CleanEvidence, Gathered, P.ValidJob, Accepts, Body, SpecOutput;
    match j.op {
      case OpSha256 => ShaIsAccepted(j.file, j.ranges, e);
      case OpCopy => CopyIsAccepted(j.file, j.ranges, e);
      case OpCount => CountIsAccepted(j.file, j.ranges, e);
      case OpChunkSha256 => ChunksAreAccepted(j.file, j.ranges, e);
    }
  }

  lemma WholeSlice(j: P.Job)
    requires P.ValidJob(j) && j.op.OpSha256?
    ensures |j.ranges| == 1 && Slice(j.file, j.ranges[0]) == j.file
  {
  }

  lemma {:induction false} ShaIsAccepted(file: seq<byte>, ranges: seq<ByteRange>, e: Evidence)
    requires WellShaped(e) && CleanEvidence(OpSha256, file, ranges, e)
    requires |ranges| == 1 && Slice(file, ranges[0]) == file
    ensures Accepts(e) && Body(e) == SpecOutput(OpSha256, file, ranges)
  {
    hide Fips180.Digest, HexText;
  }

  lemma {:induction false} CopyIsAccepted(file: seq<byte>, ranges: seq<ByteRange>, e: Evidence)
    requires WellShaped(e) && CleanEvidence(OpCopy, file, ranges, e) && e.outputSize == Some(|file|)
    ensures Accepts(e) && Body(e) == SpecOutput(OpCopy, file, ranges)
  {
    hide Fips180.Digest, HexText;
  }

  lemma {:induction false} CountIsAccepted(file: seq<byte>, ranges: seq<ByteRange>, e: Evidence)
    requires WellShaped(e) && CleanEvidence(OpCount, file, ranges, e) && Partition(ranges, |file|)
    ensures Accepts(e) && Body(e) == SpecOutput(OpCount, file, ranges)
  {
    hide GoodChunk, Partition, InFile, BytesTotal, Dec;
    SlotsAddUp(OpCount, file, ranges, e.shm.value.chunks);
  }

  lemma {:induction false} ChunksAreAccepted(file: seq<byte>, ranges: seq<ByteRange>, e: Evidence)
    requires WellShaped(e) && CleanEvidence(OpChunkSha256, file, ranges, e) && Partition(ranges, |file|)
    ensures Accepts(e) && Body(e) == SpecOutput(OpChunkSha256, file, ranges)
  {
    hide GoodChunk, Partition, InFile, BytesTotal, Body, SpecOutput;
    SlotsAddUp(OpChunkSha256, file, ranges, e.shm.value.chunks);
    assert Accepts(e);
    hide Accepts, WellShaped;
    ChunksReadAsLines(file, ranges, e);
  }

  lemma {:induction false} ChunksReadAsLines(file: seq<byte>, ranges: seq<ByteRange>, e: Evidence)
    requires WellShaped(e) && CleanEvidence(OpChunkSha256, file, ranges, e) && Accepts(e)
    ensures Body(e) == SpecOutput(OpChunkSha256, file, ranges)
  {
    LinesAgree(file, ranges, e.shm.value.chunks, |ranges|);
    hide Accepts, InFile, ChunkHeader, ChunkLines, SliceLines;
  }

  lemma {:induction false} SlotsAddUp(op: Op, file: seq<byte>, ranges: seq<ByteRange>, slots: seq<ChunkResult>)
    requires InFile(ranges, file) && |ranges| <= |slots| && Partition(ranges, |file|)
    requires forall i :: 0 <= i < |ranges| ==> slots[i] == GoodChunk(op, file, i, ranges[i])
    ensures BytesTotal(slots, |ranges|) == |file|
    ensures forall i :: 0 <= i < |ranges| ==> slots[i].ok
  {
    SlotTotals(op, file, ranges, slots, |ranges|);
    PartitionJoins(file, ranges, |ranges|);
    hide GoodChunk, Partition, Joined, BytesTotal, TotalLength;
  }

  lemma {:induction false} SlotTotals(op: Op, file: seq<byte>, ranges: seq<ByteRange>, slots: seq<ChunkResult>, n: nat)
    requires InFile(ranges, file) && n <= |ranges| <= |slots|
    requires forall i :: 0 <= i < |ranges| ==> slots[i] == GoodChunk(op, file, i, ranges[i])
    ensures BytesTotal(slots, n) == TotalLength(ranges, n)
  {
    hide Fips180.Digest, HexText, Reader.ByteSum;
    if n > 0 {
      SlotTotals(op, file, ranges, slots, n - 1);
      assert slots[n - 1] == GoodChunk(op, file, n - 1, ranges[n - 1]);
    }
  }

  lemma {:induction false} LinesAgree(file: seq<byte>, ranges: seq<ByteRange>, slots: seq<ChunkResult>, n: nat)
    requires InFile(ranges, file) && n <= |ranges| <= |slots|
    requires forall i :: 0 <= i < |ranges| ==> slots[i] == GoodChunk(OpChunkSha256, file, i, ranges[i])
    ensures ChunkLines(slots, n) == SliceLines(file, ranges, n)
  {
    hide Fips180.Digest, HexText, Dec;
    if n > 0 {
      LinesAgree(file, ranges, slots, n - 1);
    }
  }
}
