/** validate_meta of store.cpp: the records the controller is willing to queue. */
module Validate {
  import opened Base
  import opened MetaCodec
  import opened Ranges
  import opened Text
  import P = Protocol

  const DIRECT_ALIGN := 4096

  predicate BadText(s: string) {
    '\n' in s || '\r' in s
  }

  const BAD_NAMES: string := "paths and operation names " + "cannot contain newlines"
  const KNOWN_NAMES: string := "'. Use sha256, chunk-sha256, " + "count, copy, or exec."
  const SEQUENTIAL: string := "sha256 is sequential, so " + "it always uses 1 worker. "
  const IN_PARALLEL: string := "Use chunk-sha256 to hash " + "slices in parallel "
  const NOT_THE_SAME: string := "(that output is not the " + "sha256 of the whole file)."
  const NO_PROGRAM: string := "exec requires --exec " + "/path/to/program"

  /** validate_meta: the first complaint, if any. */
  function Problem(m: Meta): Option<string> {
    if BadText(m.input) || BadText(m.execPath) || BadText(OpText(m.op)) then
      Some(BAD_NAMES)
    else if m.op.UnknownOp? then
      Some("unknown operation '" + OpText(m.op) + KNOWN_NAMES)
    else if m.io.UnknownIo? then
      Some("unknown --io '" + IoText(m.io) + "'. Use mmap, read, or direct.")
    else if m.workers < 1 || m.workers > P.MAX_WORKERS then
      Some("workers must be between 1 and " + Dec(P.MAX_WORKERS))
    else if m.op.OpSha256? && m.workers != 1 then
      Some(SEQUENTIAL + IN_PARALLEL + NOT_THE_SAME)
    else if (m.op.OpCopy? || m.op.OpExec?) && m.workers != 1 then
      Some(OpText(m.op) + " uses one worker process")
    else if m.op.OpExec? && m.execPath == "" then Some(NO_PROGRAM)
    else if !m.op.OpExec? && m.input == "" then Some("missing --input")
    else if m.nice < -20 || m.nice > 19 then Some("nice must be between -20 and 19")
    else None
  }

  predicate Valid(m: Meta) {
    Problem(m) == None
  }

  /** What a record has to be, told without the messages. */
  lemma ValidExactly(m: Meta)
    ensures Valid(m) <==>
      && (forall c :: c in m.input || c in m.execPath ==> c != '\n' && c != '\r')
      && m.op in {OpSha256, OpChunkSha256, OpCount, OpCopy, OpExec} && m.io in {IoMmap, IoRead, IoDirect}
      && 1 <= m.workers <= 16 && (m.op in {OpSha256, OpCopy, OpExec} ==> m.workers == 1)
      && (if m.op.OpExec? then m.execPath != "" else m.input != "")
      && -20 <= m.nice <= 19
  {
    assert BadText(m.input) || BadText(m.execPath) <==>
      exists c :: (c in m.input || c in m.execPath) && (c == '\n' || c == '\r');
  }

  lemma InvalidHasProblem(m: Meta)
    ensures !Valid(m) ==> Problem(m).Some?
  {
  }

  /** Whether two records ask for the same work. */
  predicate SameRequest(m: Meta, n: Meta) {
    && n.op == m.op && n.input == m.input && n.execPath == m.execPath
    && n.io == m.io && n.workers == m.workers && n.nice == m.nice
  }

  lemma StaysValid(m: Meta, n: Meta)
    requires SameRequest(m, n)
    ensures Valid(m) <==> Valid(n)
  {
  }

  /** The slices launch_job makes for a record, given the size it recorded. */
  function SlicesOf(m: Meta): seq<ByteRange> {
    SplitRanges(m.bytes, if m.op.OpExec? then 1 else m.workers, if m.io.IoDirect? then DIRECT_ALIGN else 1)
  }

  /** The slices depend on the request and the recorded size alone. */
  lemma SameSlices(m: Meta, n: Meta)
    requires n.bytes == m.bytes && n.op == m.op && n.workers == m.workers && n.io == m.io
    ensures SlicesOf(n) == SlicesOf(m)
  {
  }

  /** Every accepted record gets at least one slice and at most one for each slot of the shared region. */
  lemma ValidFitsTheRegion(m: Meta)
    requires Valid(m)
    ensures 1 <= |SlicesOf(m)| <= P.MAX_WORKERS
    ensures m.op in {OpSha256, OpCopy, OpExec} ==> |SlicesOf(m)| == 1
  {
    SplitPartitions(m.bytes, if m.op.OpExec? then 1 else m.workers, if m.io.IoDirect? then DIRECT_ALIGN else 1);
  }

  /** The slices of a direct job begin on multiples of 4096, and so O_DIRECT can read them. */
  lemma DirectSlicesAreAligned(m: Meta, i: nat)
    requires Valid(m) && !m.op.OpExec? && m.io.IoDirect? && i < |SlicesOf(m)|
    ensures SlicesOf(m)[i].offset % 4096 == 0
    ensures i + 1 < |SlicesOf(m)| ==> SlicesOf(m)[i].length % 4096 == 0
  {
    hide Problem;
    ValidFitsTheRegion(m);
    SplitIsAligned(m.bytes, m.workers, DIRECT_ALIGN, i, i);
  }

  /** An accepted record of a built-in operation on a file of the recorded size is a job the workers can run. */
  lemma ValidMakesAJob(m: Meta, file: seq<byte>)
    requires Valid(m) && !m.op.OpExec? && |file| == m.bytes
    ensures P.ValidJob(P.Job(m.op, file, SlicesOf(m)))
  {
    ValidFitsTheRegion(m);
    var workers: int, align := m.workers, if m.io.IoDirect? then DIRECT_ALIGN else 1;
    SplitPartitions(|file|, workers, align);
    var rs := SlicesOf(m);
    forall i | 0 <= i < |rs| ensures rs[i].offset + rs[i].length <= |file| {
      PartitionBounds(rs, |file|, i, |rs| - 1);
    }
  }
}
