/**
 * What the controller saves can be read back. If the records that are created and the texts of the environment fit on
 * a line, every record on disk in every run is clean, so loading it gives the record that was saved.
 */
module CleanRecords {
  import opened Base
  import opened MetaCodec
  import opened Procs
  import opened Text
  import opened Validate
  import opened Worker
  import opened History
  import opened ControllerSpec
  import R = Results
  import P = Protocol

  // ---------- clean records, field by field ----------

  /** A text that survives on the rest of a line. */
  predicate IsLine(s: string) {
    '\n' !in s && DropCr(s) == s
  }

  const NO_TIME: int := -0x8000_0000_0000_0000

  predicate CleanNames(m: Meta) {
    && m.id != 0 && OpText(m.op) != "" && StateText(m.state) != ""
    && IsLine(OpText(m.op)) && IsLine(StateText(m.state)) && IsLine(IoText(m.io))
  }

  predicate CleanTexts(m: Meta) {
    && IsLine(m.input) && IsLine(m.execPath) && IsLine(m.procs) && IsLine(m.exits) && IsLine(m.digest)
    && IsLine(m.error)
  }

  predicate CleanNumbers(m: Meta) {
    m.workers >= 0 && m.submittedMs != NO_TIME && m.startedMs != NO_TIME && m.finishedMs != NO_TIME
  }

  predicate Tidy(m: Meta) {
    CleanNames(m) && CleanTexts(m) && CleanNumbers(m)
  }

  /** That is what it takes to be restored by text_to_meta. */
  lemma TidyIsClean(m: Meta)
    ensures Tidy(m) <==> Clean(m)
  {
    hide CleanField, CleanNames, CleanTexts, CleanNumbers, StateText, OpText, IoText;
    if Clean(m) {
      NamesOfClean(m);
      TextsOfClean(m);
      NumbersOfClean(m);
    }
    if Tidy(m) {
      CompleteOfTidy(m);
      forall k: Key ensures CleanField(m, k) {
        FieldOfTidy(m, k);
      }
    }
  }

  lemma NamesOfClean(m: Meta)
    requires Clean(m)
    ensures CleanNames(m)
  {
    hide StateText, OpText, IoText, DropCr;
    assert CleanField(m, KState) && CleanField(m, KOp) && CleanField(m, KIo);
  }

  lemma TextsOfClean(m: Meta)
    requires Clean(m)
    ensures CleanTexts(m)
  {
    hide StateText, OpText, IoText, DropCr;
    assert CleanField(m, KInput) && CleanField(m, KExec) && CleanField(m, KProcs) && CleanField(m, KExits);
    assert CleanField(m, KDigest) && CleanField(m, KError);
  }

  lemma NumbersOfClean(m: Meta)
    requires Clean(m)
    ensures CleanNumbers(m)
  {
    hide StateText, OpText, IoText, DropCr;
    assert CleanField(m, KWorkers) && CleanField(m, KSubmittedMs);
    assert CleanField(m, KStartedMs) && CleanField(m, KFinishedMs);
  }

  lemma CompleteOfTidy(m: Meta)
    requires Tidy(m)
    ensures Complete(m)
  {
    hide StateText, OpText, IoText, IsLine;
  }

  lemma FieldOfTidy(m: Meta, k: Key)
    requires Tidy(m)
    ensures CleanField(m, k)
  {
    hide StateText, OpText, IoText, DropCr;
  }

  lemma LineAfter(a: string, b: string)
    requires '\n' !in a && IsLine(b) && (b == "" ==> IsLine(a))
    ensures IsLine(a + b)
  {
    if b == "" {
      assert a + b == a;
    } else {
      assert (a + b)[|a + b| - 1] == b[|b| - 1];
    }
  }

  lemma NumberIsLine(n: int)
    ensures IsLine(DecInt(n)) && (n >= 0 ==> IsLine(Dec(n)))
  {
    DecIntIsClean(n);
  }

  // ---------- the texts the controller makes ----------

  lemma HowIsLine(h: WaitStatus)
    ensures IsLine(HowText(h))
  {
    hide Dec, DecInt, DropCr;
    match h
    case NotReaped => NothingIsLine();
    case Exited(n) => NumberIsLine(n); LineAfter("exited:", Dec(n));
    case KilledBy(n) => NumberIsLine(n); LineAfter("killed:", Dec(n));
    case DumpedBy(n) => NumberIsLine(n); LineAfter("dumped:", Dec(n));
    case OtherWait(c, n) =>
      NumberIsLine(n);
      NumberIsLine(c);
      LineAfter("wait:", DecInt(c));
      LineAfter("wait:" + DecInt(c) + ":", Dec(n));
  }

  lemma NothingIsLine()
    ensures IsLine("") && IsLine("?")
  {
  }

  lemma {:induction false} ExitsAreLine(ps: seq<ProcRef>)
    ensures IsLine(ExitsText(ps)) && IsLine(ExitsTail(ps))
  {
    hide HowOrMark, DropCr;
    NothingIsLine();
    if ps != [] {
      ExitsAreLine(ps[1..]);
      MarkIsLine(ps[0]);
      LineAfter(HowOrMark(ps[0]), ExitsTail(ps[1..]));
      LineAfter(",", HowOrMark(ps[0]));
      LineAfter("," + HowOrMark(ps[0]), ExitsTail(ps[1..]));
    }
  }

  lemma MarkIsLine(p: ProcRef)
    ensures IsLine(HowOrMark(p)) && HowOrMark(p) != ""
  {
    hide HowText;
    HowIsLine(p.how);
  }

  lemma {:induction false} FormattedIsLine(ps: seq<ProcRef>)
    ensures IsLine(Formatted(ps)) && IsLine(Tail(ps))
  {
    hide Entry, DropCr;
    NothingIsLine();
    if ps != [] {
      FormattedIsLine(ps[1..]);
      EntryIsLine(ps[0]);
      LineAfter(Entry(ps[0]), Tail(ps[1..]));
      LineAfter(",", Entry(ps[0]));
      LineAfter("," + Entry(ps[0]), Tail(ps[1..]));
    }
  }

  lemma EntryIsLine(p: ProcRef)
    ensures IsLine(Entry(p))
  {
    hide Dec, DecInt, DropCr;
    NumberIsLine(p.pid);
    NumberIsLine(p.start);
    LineAfter(DecInt(p.pid) + "@", Dec(p.start));
  }

  /** What is wrong with a record fits on a line if the record's operation and I/O mode do. */
  lemma ProblemIsLine(m: Meta)
    requires Problem(m).Some? && IsLine(OpText(m.op)) && IsLine(IoText(m.io))
    ensures IsLine(Problem(m).value)
  {
    hide IsLine, Dec, OpText, IoText, BadText;
    NamesAreLine();
    SequentialIsLine();
    ShortComplaints();
    if m.op.UnknownOp? {
      OperationIsLine(OpText(m.op));
    }
    IoIsLine(IoText(m.io));
    WorkersAreLine();
    OneWorkerIsLine(OpText(m.op));
  }

  lemma WorkersAreLine()
    ensures IsLine("workers must be between 1 and " + Dec(P.MAX_WORKERS))
  {
    hide Dec;
    NumberIsLine(P.MAX_WORKERS);
    LineAfter("workers must be between 1 and ", Dec(P.MAX_WORKERS));
  }

  lemma OneWorkerIsLine(op: string)
    requires IsLine(op)
    ensures IsLine(op + " uses one worker process")
  {
    LineAfter(op, " uses one worker process");
  }

  lemma NamesAreLine()
    ensures IsLine(BAD_NAMES)
  {
    LineAfter("paths and operation names ", "cannot contain newlines");
  }

  lemma OperationIsLine(op: string)
    requires IsLine(op)
    ensures IsLine("unknown operation '" + op + KNOWN_NAMES)
  {
    LineAfter("'. Use sha256, chunk-sha256, ", "count, copy, or exec.");
    LineAfter("unknown operation '" + op, KNOWN_NAMES);
  }

  lemma IoIsLine(io: string)
    requires IsLine(io)
    ensures IsLine("unknown --io '" + io + "'. Use mmap, read, or direct.")
  {
    LineAfter("unknown --io '" + io, "'. Use mmap, read, or direct.");
  }

  lemma ShortComplaints()
    ensures IsLine(NO_PROGRAM) && IsLine("missing --input") && IsLine("nice must be between -20 and 19")
  {
    LineAfter("exec requires --exec ", "/path/to/program");
  }

  lemma SequentialIsLine()
    ensures IsLine(SEQUENTIAL + IN_PARALLEL + NOT_THE_SAME)
  {
    FirstPart();
    SecondPart();
    LastPart();
    hide IsLine;
    LineAfter(SEQUENTIAL + IN_PARALLEL, NOT_THE_SAME);
  }

  lemma FirstPart()
    ensures '\n' !in SEQUENTIAL
  {
    assert '\n' !in "sha256 is sequential, so " && '\n' !in "it always uses 1 worker. ";
  }

  lemma SecondPart()
    ensures '\n' !in IN_PARALLEL
  {
    assert '\n' !in "Use chunk-sha256 to hash " && '\n' !in "slices in parallel ";
  }

  lemma LastPart()
    ensures IsLine(NOT_THE_SAME) && NOT_THE_SAME != ""
  {
    LineAfter("(that output is not the ", "sha256 of the whole file).");
  }

  // ---------- the environment's texts ----------

  predicate CleanSlot(c: ChunkResult) {
    IsLine(c.hex) && IsLine(c.error)
  }

  /** An answer whose texts fit on a line and whose time can be written. */
  ghost predicate CleanAnswer(a: Answer) {
    IsLine(a.text) && a.realtime != NO_TIME && forall i :: 0 <= i < |a.slots| ==> CleanSlot(a.slots[i])
  }

  ghost predicate CleanOracle(o: Oracle) {
    forall n: nat :: CleanAnswer(o(n))
  }

  /** The reason of a rejection fits on a line if the texts of the slots do. */
  lemma WhyIsLine(e: R.Evidence)
    requires R.WellShaped(e) && !R.Accepts(e) && IsLine(e.outputError)
    requires e.shm.Some? ==> forall i :: 0 <= i < |e.shm.value.chunks| ==> CleanSlot(e.shm.value.chunks[i])
    ensures IsLine(R.Why(e))
  {
    if e.op.OpExec? {
      ExecWhyIsLine(e.hows);
    } else if e.shm.None? {
      FixedReasons();
    } else {
      var shm := e.shm.value;
      if shm.done < shm.nchunks {
        PublishedIsLine(shm.done, shm.nchunks);
      } else if R.FirstUnclean(e.hows) < |e.hows| {
        WorkerIsLine(e.hows[R.FirstUnclean(e.hows)]);
      } else {
        hide IsLine, Dec, R.Accepts;
        FixedReasons();
        OperationWhy(shm, e.bytes);
        CopyWhy(e);
      }
    }
  }

  lemma ExecWhyIsLine(hows: seq<WaitStatus>)
    ensures IsLine(if hows == [] then "exec produced no child" else HowText(hows[0]))
  {
    hide HowText;
    if hows != [] {
      HowIsLine(hows[0]);
    }
  }

  lemma FixedReasons()
    ensures IsLine("missing shared region") && IsLine("unknown operation") && IsLine("empty digest")
    ensures IsLine("chunk failed") && IsLine("copy failed")
  {
  }

  lemma PublishedIsLine(done: nat, n: nat)
    ensures IsLine("published " + Dec(done) + " of " + Dec(n) + " chunks")
  {
    hide Dec;
    NumberIsLine(done);
    NumberIsLine(n);
    LineAfter("published " + Dec(done) + " of " + Dec(n), " chunks");
  }

  lemma WorkerIsLine(h: WaitStatus)
    ensures IsLine("worker " + HowText(h))
  {
    hide HowText;
    HowIsLine(h);
    LineAfter("worker ", HowText(h));
  }

  lemma OperationWhy(shm: R.Region, bytes: uint64)
    requires shm.nchunks <= |shm.chunks| && forall i :: 0 <= i < |shm.chunks| ==> CleanSlot(shm.chunks[i])
    ensures IsLine(R.ChunksWhy(shm)) && IsLine(R.CountWhy(shm, bytes))
  {
    hide Dec, DropCr, R.BytesTotal;
    FixedReasons();
    LineAfter("chunk bytes do not add ", "up to the file size");
    var sum := R.BytesTotal(shm.chunks, shm.nchunks) % U64;
    NumberIsLine(sum);
    NumberIsLine(bytes);
    LineAfter("count " + Dec(sum) + " != file size ", Dec(bytes));
  }

  lemma CopyWhy(e: R.Evidence)
    requires IsLine(e.outputError)
    ensures IsLine("copy output missing: " + e.outputError)
    ensures e.outputSize.Some? ==> IsLine("output size " + Dec(e.outputSize.value) + " != input " + Dec(e.bytes))
  {
    hide Dec;
    LineAfter("copy output missing: ", e.outputError);
    if e.outputSize.Some? {
      NumberIsLine(e.outputSize.value);
      NumberIsLine(e.bytes);
      LineAfter("output size " + Dec(e.outputSize.value) + " != input ", Dec(e.bytes));
    }
  }

  /** The digest finalize keeps: the body without its newline. */
  lemma DigestIsLine(e: R.Evidence)
    requires R.WellShaped(e) && R.Accepts(e) && e.op in {OpSha256, OpCount}
    requires forall i :: 0 <= i < |e.shm.value.chunks| ==> CleanSlot(e.shm.value.chunks[i])
    ensures IsLine(TrimNewlines(R.Body(e)))
  {
    hide Dec;
    if e.op.OpSha256? {
      TrimLine(e.shm.value.chunks[0].hex);
    } else {
      NumberIsLine(e.bytes);
      TrimLine(Dec(e.bytes));
    }
  }

  lemma TrimLine(s: string)
    requires IsLine(s)
    ensures TrimNewlines(s + "\n") == s
  {
    assert (s + "\n")[..|s + "\n"| - 1] == s;
  }

  lemma JudgedIsTidy(job: LiveJob, a: Answer)
    requires Tidy(job.meta) && CleanAnswer(a)
    ensures Tidy(Judged(job, a))
  {
    hide Valid, IsLine, R.Why, R.Body, R.Accepts, ExitsText, TrimNewlines, OpText, IoText;
    var e := EvidenceOf(job, a);
    ExitsAreLine(job.procs);
    NothingIsLine();
    StatesAreLines();
    if R.Accepts(e) {
      if e.op in {OpSha256, OpCount} {
        AcceptedRegion(e);
        DigestIsLine(e);
      }
    } else {
      WhyIsLine(e);
    }
  }

  lemma AcceptedRegion(e: R.Evidence)
    requires R.WellShaped(e) && R.Accepts(e) && !e.op.OpExec?
    ensures e.shm.Some?
  {
  }

  lemma StatesAreLines()
    ensures forall s: JobState :: !s.UnknownState? ==> IsLine(StateText(s)) && StateText(s) != ""
  {
  }
}
