/** One job's record and its on-disk text: Meta of forge.hpp, meta_to_text and text_to_meta of store.cpp. */
module MetaCodec {
  import opened Base
  import opened Text

  // ---------- states, operations and I/O modes, one value for each text ----------

  datatype StateName =
    | Submitted | Queued | Starting | Running | Persisting
    | Completed | Failed | TimedOut | Cancelled
    | UnknownState(text: string)

  datatype OpName = OpSha256 | OpChunkSha256 | OpCount | OpCopy | OpExec | UnknownOp(text: string)

  datatype IoName = IoMmap | IoRead | IoDirect | UnknownIo(text: string)

  function StateText(s: StateName): string {
    match s
    case Submitted => "submitted"
    case Queued => "queued"
    case Starting => "starting"
    case Running => "running"
    case Persisting => "persisting"
    case Completed => "completed"
    case Failed => "failed"
    case TimedOut => "timed_out"
    case Cancelled => "cancelled"
    case UnknownState(text) => text
  }

  function ReadState(text: string): StateName {
    if text == "submitted" then Submitted
    else if text == "queued" then Queued
    else if text == "starting" then Starting
    else if text == "running" then Running
    else if text == "persisting" then Persisting
    else if text == "completed" then Completed
    else if text == "failed" then Failed
    else if text == "timed_out" then TimedOut
    else if text == "cancelled" then Cancelled
    else UnknownState(text)
  }

  function OpText(o: OpName): string {
    match o
    case OpSha256 => "sha256"
    case OpChunkSha256 => "chunk-sha256"
    case OpCount => "count"
    case OpCopy => "copy"
    case OpExec => "exec"
    case UnknownOp(text) => text
  }

  function ReadOp(text: string): OpName {
    if text == "sha256" then OpSha256
    else if text == "chunk-sha256" then OpChunkSha256
    else if text == "count" then OpCount
    else if text == "copy" then OpCopy
    else if text == "exec" then OpExec
    else UnknownOp(text)
  }

  function IoText(o: IoName): string {
    match o
    case IoMmap => "mmap"
    case IoRead => "read"
    case IoDirect => "direct"
    case UnknownIo(text) => text
  }

  function ReadIo(text: string): IoName {
    if text == "mmap" then IoMmap
    else if text == "read" then IoRead
    else if text == "direct" then IoDirect
    else UnknownIo(text)
  }

  /** Values that stand for their text: an unknown name is not one of the known ones. */
  type JobState = s: StateName | s.UnknownState? ==> ReadState(s.text) == s witness Submitted
  type Op = o: OpName | o.UnknownOp? ==> ReadOp(o.text) == o witness OpCount
  type Io = o: IoName | o.UnknownIo? ==> ReadIo(o.text) == o witness IoMmap

  /** Names are in bijection with texts, so a Meta holds exactly what the source's strings hold. */
  lemma NamesAreTexts(text: string)
    ensures StateText(ReadState(text)) == text
    ensures OpText(ReadOp(text)) == text
    ensures IoText(ReadIo(text)) == text
  {
  }

  lemma TextsAreNames(s: JobState, o: Op, i: Io)
    ensures ReadState(StateText(s)) == s && ReadOp(OpText(o)) == o && ReadIo(IoText(i)) == i
  {
  }

  datatype Meta = Meta(
    id: uint64, state: JobState, op: Op, input: string, execPath: string, io: Io,
    workers: int32, priority: int32, nice: int32, cpu: int32,
    memMb: uint64, cpuSec: uint64, maxFds: uint64, maxOutMb: uint64, deadlineS: uint64,
    procs: string, exits: string, bytes: uint64, digest: string, error: string,
    submittedMs: int64, startedMs: int64, finishedMs: int64)

  /** Meta{}: the member initialisers of forge.hpp. */
  const BLANK: Meta := Meta(0, Submitted, UnknownOp(""), "", "", IoMmap, 1, 0, 0, -1,
                            0, 0, 0, 0, 0, "", "", 0, "", "", 0, 0, 0)

  // ---------- one line for each field ----------

  datatype Key =
    | KId | KState | KOp | KInput | KExec | KIo | KWorkers | KPriority | KNice | KCpu
    | KMemMb | KCpuSec | KMaxFds | KMaxOutMb | KDeadlineS | KProcs | KExits | KBytes
    | KDigest | KError | KSubmittedMs | KStartedMs | KFinishedMs

  /** The keys in the order meta_to_text writes them. */
  const KEYS: seq<Key> := [
    KId, KState, KOp, KInput, KExec, KIo, KWorkers, KPriority, KNice, KCpu,
    KMemMb, KCpuSec, KMaxFds, KMaxOutMb, KDeadlineS, KProcs, KExits, KBytes,
    KDigest, KError, KSubmittedMs, KStartedMs, KFinishedMs]

  function KeyText(k: Key): string {
    match k
    case KId => "id"
    case KState => "state"
    case KOp => "op"
    case KInput => "input"
    case KExec => "exec"
    case KIo => "io"
    case KWorkers => "workers"
    case KPriority => "priority"
    case KNice => "nice"
    case KCpu => "cpu"
    case KMemMb => "mem_mb"
    case KCpuSec => "cpu_sec"
    case KMaxFds => "max_fds"
    case KMaxOutMb => "max_out_mb"
    case KDeadlineS => "deadline_s"
    case KProcs => "procs"
    case KExits => "exits"
    case KBytes => "bytes"
    case KDigest => "digest"
    case KError => "error"
    case KSubmittedMs => "submitted_ms"
    case KStartedMs => "started_ms"
    case KFinishedMs => "finished_ms"
  }

  /** The comparisons of assign_meta_field, in its order. */
  function ReadKey(s: string): Option<Key> {
    if s == "id" then Some(KId)
    else if s == "state" then Some(KState)
    else if s == "op" then Some(KOp)
    else if s == "input" then Some(KInput)
    else if s == "exec" then Some(KExec)
    else if s == "io" then Some(KIo)
    else if s == "workers" then Some(KWorkers)
    else if s == "priority" then Some(KPriority)
    else if s == "nice" then Some(KNice)
    else if s == "cpu" then Some(KCpu)
    else if s == "mem_mb" then Some(KMemMb)
    else if s == "cpu_sec" then Some(KCpuSec)
    else if s == "max_fds" then Some(KMaxFds)
    else if s == "max_out_mb" then Some(KMaxOutMb)
    else if s == "deadline_s" then Some(KDeadlineS)
    else if s == "procs" then Some(KProcs)
    else if s == "exits" then Some(KExits)
    else if s == "bytes" then Some(KBytes)
    else if s == "digest" then Some(KDigest)
    else if s == "error" then Some(KError)
    else if s == "submitted_ms" then Some(KSubmittedMs)
    else if s == "started_ms" then Some(KStartedMs)
    else if s == "finished_ms" then Some(KFinishedMs)
    else None
  }

  /** What a field holds. */
  datatype Value = Num(n: int) | Str(s: string)

  function Get(m: Meta, k: Key): Value {
    match k
    case KId => Num(m.id)
    case KState => Str(StateText(m.state))
    case KOp => Str(OpText(m.op))
    case KInput => Str(m.input)
    case KExec => Str(m.execPath)
    case KIo => Str(IoText(m.io))
    case KWorkers => Num(m.workers)
    case KPriority => Num(m.priority)
    case KNice => Num(m.nice)
    case KCpu => Num(m.cpu)
    case KMemMb => Num(m.memMb)
    case KCpuSec => Num(m.cpuSec)
    case KMaxFds => Num(m.maxFds)
    case KMaxOutMb => Num(m.maxOutMb)
    case KDeadlineS => Num(m.deadlineS)
    case KProcs => Str(m.procs)
    case KExits => Str(m.exits)
    case KBytes => Num(m.bytes)
    case KDigest => Str(m.digest)
    case KError => Str(m.error)
    case KSubmittedMs => Num(m.submittedMs)
    case KStartedMs => Num(m.startedMs)
    case KFinishedMs => Num(m.finishedMs)
  }

  /** The text written after `=`. */
  function ValueText(v: Value): string {
    match v
    case Num(n) => DecInt(n)
    case Str(s) => s
  }

  datatype Parsed = Ok(meta: Meta) | Bad(error: string)

  /** How assign_meta_field reads the value of a key. */
  datatype Kind = Text | Unsigned64 | Signed64 | UnsignedToInt | SignedToInt

  function KindOf(k: Key): Kind {
    match k
    case KState | KOp | KInput | KExec | KIo | KProcs | KExits | KDigest | KError => Text
    case KId | KMemMb | KCpuSec | KMaxFds | KMaxOutMb | KDeadlineS | KBytes => Unsigned64
    case KSubmittedMs | KStartedMs | KFinishedMs => Signed64
    case KWorkers => UnsignedToInt
    case KPriority | KNice | KCpu => SignedToInt
  }

  /** Whether a field can hold `v`. */
  predicate Fits(k: Key, v: Value) {
    match KindOf(k)
    case Text => v.Str?
    case Unsigned64 => v.Num? && 0 <= v.n < U64
    case Signed64 => v.Num? && -0x8000_0000_0000_0000 <= v.n < 0x8000_0000_0000_0000
    case UnsignedToInt => v.Num? && -0x8000_0000 <= v.n < 0x8000_0000
    case SignedToInt => v.Num? && -0x8000_0000 <= v.n < 0x8000_0000
  }

  /** `m` with one field set. */
  function Put(m: Meta, k: Key, v: Value): Meta
    requires Fits(k, v)
  {
    match k
    case KId => m.(id := v.n)
    case KState => NamesAreTexts(v.s); m.(state := ReadState(v.s))
    case KOp => NamesAreTexts(v.s); m.(op := ReadOp(v.s))
    case KInput => m.(input := v.s)
    case KExec => m.(execPath := v.s)
    case KIo => NamesAreTexts(v.s); m.(io := ReadIo(v.s))
    case KWorkers => m.(workers := v.n)
    case KPriority => m.(priority := v.n)
    case KNice => m.(nice := v.n)
    case KCpu => m.(cpu := v.n)
    case KMemMb => m.(memMb := v.n)
    case KCpuSec => m.(cpuSec := v.n)
    case KMaxFds => m.(maxFds := v.n)
    case KMaxOutMb => m.(maxOutMb := v.n)
    case KDeadlineS => m.(deadlineS := v.n)
    case KProcs => m.(procs := v.s)
    case KExits => m.(exits := v.s)
    case KBytes => m.(bytes := v.n)
    case KDigest => m.(digest := v.s)
    case KError => m.(error := v.s)
    case KSubmittedMs => m.(submittedMs := v.n)
    case KStartedMs => m.(startedMs := v.n)
    case KFinishedMs => m.(finishedMs := v.n)
  }

  /** The value text_to_meta reads out of `val` for a key, or the error. */
  datatype Reading = Read(v: Value) | Unreadable(error: string)

  function ReadValue(k: Key, val: string): (r: Reading)
    ensures r.Read? ==> Fits(k, r.v)
  {
    match KindOf(k)
    case Text => Read(Str(val))
    case Unsigned64 =>
      (match ParsedU64(val)
       case None => Unreadable("bad number for " + KeyText(k))
       case Some(n) => Read(Num(n)))
    case UnsignedToInt =>
      (match ParsedU64(val)
       case None => Unreadable("bad number for " + KeyText(k))
       case Some(n) => Read(Num(AsInt32(n))))
    case Signed64 =>
      (match ParsedI64(val)
       case NotANumber => Unreadable("bad number for " + KeyText(k))
       case Undefined => Unreadable("undefined: the smallest int64 has no negative")
       case Number(n) => Read(Num(n)))
    case SignedToInt =>
      (match ParsedI64(val)
       case NotANumber => Unreadable("bad number for " + KeyText(k))
       case Undefined => Unreadable("undefined: the smallest int64 has no negative")
       case Number(n) => Read(Num(AsInt32(n))))
  }

  /** assign_meta_field for a known key. */
  function Assign(m: Meta, k: Key, val: string): Parsed {
    match ReadValue(k, val)
    case Unreadable(e) => Bad(e)
    case Read(v) => Ok(Put(m, k, v))
  }

  // ---------- the file ----------

  function FieldLine(m: Meta, k: Key): string {
    KeyText(k) + "=" + ValueText(Get(m, k))
  }

  /** The lines of the given keys, each ended by a newline. */
  function LinesText(m: Meta, keys: seq<Key>): string {
    if keys == [] then "" else FieldLine(m, keys[0]) + "\n" + LinesText(m, keys[1..])
  }

  /** meta_to_text. */
  function MetaToText(m: Meta): string {
    LinesText(m, KEYS)
  }

  /** The line of each field, by its name in the file. */
  lemma LineNames(m: Meta, k: Key)
    ensures FieldLine(m, k) ==
      match k
      case KId => "id=" + DecInt(m.id)
      case KState => "state=" + StateText(m.state)
      case KOp => "op=" + OpText(m.op)
      case KInput => "input=" + m.input
      case KExec => "exec=" + m.execPath
      case KIo => "io=" + IoText(m.io)
      case KWorkers => "workers=" + DecInt(m.workers)
      case KPriority => "priority=" + DecInt(m.priority)
      case KNice => "nice=" + DecInt(m.nice)
      case KCpu => "cpu=" + DecInt(m.cpu)
      case KMemMb => "mem_mb=" + DecInt(m.memMb)
      case KCpuSec => "cpu_sec=" + DecInt(m.cpuSec)
      case KMaxFds => "max_fds=" + DecInt(m.maxFds)
      case KMaxOutMb => "max_out_mb=" + DecInt(m.maxOutMb)
      case KDeadlineS => "deadline_s=" + DecInt(m.deadlineS)
      case KProcs => "procs=" + m.procs
      case KExits => "exits=" + m.exits
      case KBytes => "bytes=" + DecInt(m.bytes)
      case KDigest => "digest=" + m.digest
      case KError => "error=" + m.error
      case KSubmittedMs => "submitted_ms=" + DecInt(m.submittedMs)
      case KStartedMs => "started_ms=" + DecInt(m.startedMs)
      case KFinishedMs => "finished_ms=" + DecInt(m.finishedMs)
  {
    hide DecInt, StateText, OpText, IoText;
    var key := KeyText(k) + "=";
    assert FieldLine(m, k) == key + ValueText(Get(m, k));
  }

  /** The body of the loop of text_to_meta, on one line. */
  function ReadLine(m: Meta, line: string): Parsed {
    if line == "" || line[0] == '#' then Ok(m)
    else
      var body := DropCr(line);
      var eq := Find(body, '=');
      if eq == |body| then Bad("meta line has no '=': " + body)
      else
        match ReadKey(body[..eq])
        case None => Ok(m)  // a key this version does not have
        case Some(k) => Assign(m, k, body[eq + 1..])
  }

  /** Empty lines, comments and keys of other versions are passed over; a line without `=` is an error. */
  lemma LinesPassedOver(m: Meta, key: string, val: string)
    ensures ReadLine(m, "") == Ok(m) && ReadLine(m, "#" + val) == Ok(m)
    ensures key != "" && key[0] != '#' && '=' !in key && ReadKey(key).None? ==> ReadLine(m, key + "=" + val) == Ok(m)
    ensures val != "" && val[0] != '#' && '=' !in val ==> ReadLine(m, val).Bad?
  {
    hide Assign;
    if key != "" && key[0] != '#' && '=' !in key && ReadKey(key).None? {
      hide ReadKey;
      var line := key + "=" + val;
      var body := DropCr(line);
      var rest := DropCr("=" + val)[1..];
      assert body == key + ['='] + rest;
      FindAfter(key, '=', rest);
    }
  }

  /** All the lines in turn; the first failure ends the reading. */
  function ReadLines(m: Meta, lines: seq<string>): Parsed
    decreases |lines|
  {
    if lines == [] then Ok(m)
    else
      match ReadLine(m, lines[0])
      case Bad(e) => Bad(e)
      case Ok(m') => ReadLines(m', lines[1..])
  }

  function Complete(m: Meta): bool {
    m.id != 0 && OpText(m.op) != "" && StateText(m.state) != ""
  }

  /** What text_to_meta returns for a text. */
  function TextToMeta(text: string): Parsed {
    match ReadLines(BLANK, Split(text, '\n'))
    case Bad(e) => Bad(e)
    case Ok(m) => if Complete(m) then Ok(m) else Bad("meta is missing id, op, or state")
  }

  /** text_to_meta: std::getline until the stream is empty. */
  method ReadMeta(text: string) returns (r: Parsed)
    ensures r == TextToMeta(text)
  {
    var meta := BLANK;
    var rest := text;
    while rest != ""
      invariant ReadLines(BLANK, Split(text, '\n')) == ReadLines(meta, Split(rest, '\n'))
      decreases |rest|
    {
      var at := Find(rest, '\n');
      var line := rest[..at];
      var parsed := ReadLine(meta, line);
      if at == |rest| {
        var one: seq<string> := [rest];
        assert rest[..at] == rest && one[1..] == [] && Split(rest, '\n') == one;
        rest := "";
      } else {
        assert Split(rest, '\n') == [line] + Split(rest[at + 1..], '\n');
        rest := rest[at + 1..];
      }
      if parsed.Bad? {
        return parsed;
      }
      meta := parsed.meta;
    }
    if meta.id == 0 || OpText(meta.op) == "" || StateText(meta.state) == "" {
      return Bad("meta is missing id, op, or state");
    }
    return Ok(meta);
  }

  // ---------- the round trip ----------

  /** A field that reading back its own line restores. */
  predicate CleanField(m: Meta, k: Key) {
    match Get(m, k)
    case Str(s) => '\n' !in s && DropCr(s) == s
    case Num(n) =>
      && (KindOf(k) == UnsignedToInt ==> n >= 0)
      && (KindOf(k) == Signed64 ==> n != -0x8000_0000_0000_0000)
  }

  /** Every field is clean, and id, op and state are given. */
  ghost predicate Clean(m: Meta) {
    Complete(m) && forall k :: CleanField(m, k)
  }

  /**
   * text_to_meta inverts meta_to_text on exactly the clean records: no newline and no trailing
   * carriage return in a text, no negative worker count, no smallest int64, and id, op and state present.
   */
  lemma RoundTrip(m: Meta)
    ensures TextToMeta(MetaToText(m)) == Ok(m) <==> Clean(m)
  {
    hide Get, BackValue, CleanField, LinesText, ReadLines, KEYS;
    var lines := Split(MetaToText(m), '\n');
    var r := ReadLines(BLANK, lines);
    BlankHasNoNewline();
    ReadingAddsNoNewline(BLANK, lines);
    if Clean(m) {
      CleanHasNoNewline(m);
    }
    if r == Ok(m) || Clean(m) {
      ReadBack(BLANK, m, KEYS);
      forall k ensures k in KEYS && (BackValue(m, k) == Read(Get(m, k)) <==> CleanField(m, k)) {
        KeyIsListed(k);
        CleanIsRestored(m, k);
      }
      if Clean(m) {
        forall k ensures Get(r.meta, k) == Get(m, k) {
          assert k in KEYS;
        }
        SameFields(r.meta, m);
      }
    }
  }

  /** No field can be taken for the state: what is read back of a record without newlines has its state. */
  lemma StateReadsBack(m: Meta)
    requires NewlineFree(m) && !m.state.UnknownState?
    ensures TextToMeta(MetaToText(m)).Ok? ==> StateText(TextToMeta(MetaToText(m)).meta.state) == StateText(m.state)
  {
    hide Get, BackValue, LinesText, ReadLines, KEYS, NewlineFree;
    ReadBack(BLANK, m, KEYS);
    KeyIsListed(KState);
    var r := ReadLines(BLANK, Split(MetaToText(m), '\n'));
    if r.Ok? {
      assert Get(r.meta, KState) == BackValue(m, KState).v;
      StateField(r.meta, m);
    }
  }

  lemma StateField(n: Meta, m: Meta)
    requires Get(n, KState) == BackValue(m, KState).v && !m.state.UnknownState?
    ensures StateText(n.state) == StateText(m.state)
  {
  }

  ghost predicate NewlineFree(m: Meta) {
    forall k :: Get(m, k).Str? ==> '\n' !in Get(m, k).s
  }

  lemma BlankHasNoNewline()
    ensures NewlineFree(BLANK)
  {
  }

  lemma CleanHasNoNewline(m: Meta)
    requires forall k :: CleanField(m, k)
    ensures NewlineFree(m)
  {
    forall k | Get(m, k).Str? ensures '\n' !in Get(m, k).s {
      assert CleanField(m, k);
    }
  }

  /** What comes back for a field whose text has no newline. */
  function BackValue(m: Meta, k: Key): Reading {
    ReadValue(k, DropCr(ValueText(Get(m, k))))
  }

  /** Reading the lines of `keys`: it succeeds when each value is readable, and sets just those fields. */
  lemma {:induction false} ReadBack(acc: Meta, m: Meta, keys: seq<Key>)
    requires NewlineFree(m)
    ensures ReadLines(acc, Split(LinesText(m, keys), '\n')).Ok? <==> forall k :: k in keys ==> BackValue(m, k).Read?
    ensures var r := ReadLines(acc, Split(LinesText(m, keys), '\n'));
            r.Ok? ==> forall k :: Get(r.meta, k) == if k in keys then BackValue(m, k).v else Get(acc, k)
    decreases |keys|
  {
    hide Get, Put, KeyText, ReadLine, ReadValue, ValueText, NewlineFree;
    if keys != [] {
      var k := keys[0];
      var line, rest := FieldLine(m, k), LinesText(m, keys[1..]);
      LineOfField(acc, m, k);
      FindAfter(line, '\n', rest);
      assert line + "\n" + rest == line + ['\n'] + rest;
      assert Split(LinesText(m, keys), '\n') == [line] + Split(rest, '\n');
      if BackValue(m, k).Read? {
        var next := Put(acc, k, BackValue(m, k).v);
        GetPut(acc, k, BackValue(m, k).v);
        ReadBack(next, m, keys[1..]);
      }
    }
  }

  lemma LineOfField(acc: Meta, m: Meta, k: Key)
    requires NewlineFree(m)
    ensures '\n' !in FieldLine(m, k)
    ensures ReadLine(acc, FieldLine(m, k)) == Assign(acc, k, DropCr(ValueText(Get(m, k))))
  {
    KeyIsRead(k);
    KeyIsPlain(k);
    hide KeyText, ReadKey, Get, Assign;
    var key, val := KeyText(k), ValueText(Get(m, k));
    if Get(m, k).Num? {
      DecIntIsClean(Get(m, k).n);
    }
    var line := FieldLine(m, k);
    assert line[0] == key[0];
    assert line == key + ['='] + val;
    var body := DropCr(line);
    assert body == key + ['='] + DropCr(val) by {
      if val != [] {
        assert line[|line| - 1] == val[|val| - 1];
      }
    }
    FindAfter(key, '=', DropCr(val));
  }

  lemma CleanIsRestored(m: Meta, k: Key)
    requires Get(m, k).Str? ==> '\n' !in Get(m, k).s
    ensures BackValue(m, k) == Read(Get(m, k)) <==> CleanField(m, k)
  {
    assert Fits(k, Get(m, k));
    hide Get, DecInt, ParsedU64, ParsedI64;
    if Get(m, k).Num? {
      NumberIsRestored(k, Get(m, k).n);
    }
  }

  lemma NumberIsRestored(k: Key, n: int)
    requires Fits(k, Num(n))
    ensures ReadValue(k, DropCr(DecInt(n))) == Read(Num(n)) <==>
            (KindOf(k) == UnsignedToInt ==> n >= 0) && (KindOf(k) == Signed64 ==> n != -0x8000_0000_0000_0000)
  {
    if -0x8000_0000 <= n < 0x8000_0000 {
      AsInt32OfInt32(n);
    }
    hide ParsedU64, ParsedI64, DropCr, KeyText, KindOf, AsInt32, Dec;
    DecIntIsClean(n);
    match KindOf(k) {
      case Unsigned64 | UnsignedToInt =>
        if n < 0 {
          NegativeIsNotU64(n);
        } else {
          ParseInvertsDec(n);
        }
      case Signed64 | SignedToInt =>
        ParseInvertsDecInt(n);
    }
  }

  lemma {:induction false} ReadingAddsNoNewline(m: Meta, lines: seq<string>)
    requires NewlineFree(m) && forall i :: 0 <= i < |lines| ==> '\n' !in lines[i]
    ensures ReadLines(m, lines).Ok? ==> NewlineFree(ReadLines(m, lines).meta)
    decreases |lines|
  {
    if lines != [] && ReadLine(m, lines[0]).Ok? {
      var body := DropCr(lines[0]);
      var eq := Find(body, '=');
      if lines[0] != "" && lines[0][0] != '#' && ReadKey(body[..eq]).Some? {
        var k := ReadKey(body[..eq]).value;
        GetPut(m, k, ReadValue(k, body[eq + 1..]).v);
      }
      ReadingAddsNoNewline(ReadLine(m, lines[0]).meta, lines[1..]);
    }
  }

  lemma GetPut(m: Meta, k: Key, v: Value)
    requires Fits(k, v)
    ensures Get(Put(m, k, v), k) == v
    ensures forall j :: j != k ==> Get(Put(m, k, v), j) == Get(m, j)
  {
    if v.Str? {
      NamesAreTexts(v.s);
    }
    forall j | j != k ensures Get(Put(m, k, v), j) == Get(m, j) {
      hide *;
      PutElsewhere(m, k, v, j);
    }
  }

  lemma PutElsewhere(m: Meta, k: Key, v: Value, j: Key)
    requires Fits(k, v) && j != k
    ensures Get(Put(m, k, v), j) == Get(m, j)
  {
    if OfRequest(k) {
      hide Get, Put, Fits;
      PutRequest(m, k, v, j);
    } else {
      hide Get, Put, Fits;
      PutOther(m, k, v, j);
    }
  }

  lemma PutRequest(m: Meta, k: Key, v: Value, j: Key)
    requires Fits(k, v) && j != k && OfRequest(k)
    ensures Get(Put(m, k, v), j) == Get(m, j)
  {
  }

  lemma PutOther(m: Meta, k: Key, v: Value, j: Key)
    requires Fits(k, v) && j != k && !OfRequest(k)
    ensures Get(Put(m, k, v), j) == Get(m, j)
  {
  }

  ghost predicate Same(a: Meta, b: Meta) {
    forall k :: Get(a, k) == Get(b, k)
  }

  /** A record is determined by its fields. */
  lemma SameFields(a: Meta, b: Meta)
    requires Same(a, b)
    ensures a == b
  {
    SameNames(a, b);
    SameTexts(a, b);
    SameSettings(a, b);
    SameRecords(a, b);
    hide Same;
  }

  lemma SameNames(a: Meta, b: Meta)
    requires Same(a, b)
    ensures a.state == b.state && a.op == b.op && a.io == b.io
  {
    assert Get(a, KState) == Get(b, KState);
    assert Get(a, KOp) == Get(b, KOp);
    assert Get(a, KIo) == Get(b, KIo);
    hide Same, StateText, ReadState, OpText, ReadOp, IoText, ReadIo;
    assert ReadState(StateText(a.state)) == a.state && ReadState(StateText(b.state)) == b.state;
    assert ReadOp(OpText(a.op)) == a.op && ReadOp(OpText(b.op)) == b.op;
    assert ReadIo(IoText(a.io)) == a.io && ReadIo(IoText(b.io)) == b.io;
  }

  lemma SameTexts(a: Meta, b: Meta)
    requires Same(a, b)
    ensures a.input == b.input && a.execPath == b.execPath && a.procs == b.procs && a.exits == b.exits
    ensures a.digest == b.digest && a.error == b.error
  {
    hide StateText, OpText, IoText, ReadState, ReadOp, ReadIo;
    assert Get(a, KInput) == Get(b, KInput) && Get(a, KExec) == Get(b, KExec);
    assert Get(a, KProcs) == Get(b, KProcs) && Get(a, KExits) == Get(b, KExits);
    assert Get(a, KDigest) == Get(b, KDigest) && Get(a, KError) == Get(b, KError);
  }

  lemma SameSettings(a: Meta, b: Meta)
    requires Same(a, b)
    ensures a.workers == b.workers && a.priority == b.priority && a.nice == b.nice && a.cpu == b.cpu
    ensures a.memMb == b.memMb && a.cpuSec == b.cpuSec && a.maxFds == b.maxFds && a.maxOutMb == b.maxOutMb
  {
    hide StateText, OpText, IoText, ReadState, ReadOp, ReadIo;
    assert Get(a, KWorkers) == Get(b, KWorkers) && Get(a, KPriority) == Get(b, KPriority);
    assert Get(a, KNice) == Get(b, KNice) && Get(a, KCpu) == Get(b, KCpu);
    assert Get(a, KMemMb) == Get(b, KMemMb) && Get(a, KCpuSec) == Get(b, KCpuSec);
    assert Get(a, KMaxFds) == Get(b, KMaxFds) && Get(a, KMaxOutMb) == Get(b, KMaxOutMb);
  }

  lemma SameRecords(a: Meta, b: Meta)
    requires Same(a, b)
    ensures a.id == b.id && a.deadlineS == b.deadlineS && a.bytes == b.bytes
    ensures a.submittedMs == b.submittedMs && a.startedMs == b.startedMs && a.finishedMs == b.finishedMs
  {
    hide StateText, OpText, IoText, ReadState, ReadOp, ReadIo;
    assert Get(a, KId) == Get(b, KId) && Get(a, KDeadlineS) == Get(b, KDeadlineS);
    assert Get(a, KBytes) == Get(b, KBytes) && Get(a, KSubmittedMs) == Get(b, KSubmittedMs);
    assert Get(a, KStartedMs) == Get(b, KStartedMs) && Get(a, KFinishedMs) == Get(b, KFinishedMs);
  }

  lemma KeyIsListed(k: Key)
    ensures k in KEYS
  {
    match k
    case KId => assert KEYS[0] == KId;
    case KState => assert KEYS[1] == KState;
    case KOp => assert KEYS[2] == KOp;
    case KInput => assert KEYS[3] == KInput;
    case KExec => assert KEYS[4] == KExec;
    case KIo => assert KEYS[5] == KIo;
    case KWorkers => assert KEYS[6] == KWorkers;
    case KPriority => assert KEYS[7] == KPriority;
    case KNice => assert KEYS[8] == KNice;
    case KCpu => assert KEYS[9] == KCpu;
    case KMemMb => assert KEYS[10] == KMemMb;
    case KCpuSec => assert KEYS[11] == KCpuSec;
    case KMaxFds => assert KEYS[12] == KMaxFds;
    case KMaxOutMb => assert KEYS[13] == KMaxOutMb;
    case KDeadlineS => assert KEYS[14] == KDeadlineS;
    case KProcs => assert KEYS[15] == KProcs;
    case KExits => assert KEYS[16] == KExits;
    case KBytes => assert KEYS[17] == KBytes;
    case KDigest => assert KEYS[18] == KDigest;
    case KError => assert KEYS[19] == KError;
    case KSubmittedMs => assert KEYS[20] == KSubmittedMs;
    case KStartedMs => assert KEYS[21] == KStartedMs;
    case KFinishedMs => assert KEYS[22] == KFinishedMs;
  }

  /** Each key's own text is recognised. */
  lemma KeyIsRead(k: Key)
    ensures ReadKey(KeyText(k)) == Some(k)
  {
    if OfRequest(k) {
      RequestKeyIsRead(k);
    } else if OfTime(k) {
      TimeKeyIsRead(k);
    } else {
      ResultKeyIsRead(k);
    }
  }

  /** The fields that say what is asked for. */
  predicate OfRequest(k: Key) {
    k.KId? || k.KState? || k.KOp? || k.KInput? || k.KExec? || k.KIo? || k.KWorkers? || k.KPriority? || k.KNice?
    || k.KCpu? || k.KMemMb?
  }

  /** The fields that hold times. */
  predicate OfTime(k: Key) {
    k.KCpuSec? || k.KDeadlineS? || k.KSubmittedMs? || k.KStartedMs? || k.KFinishedMs?
  }

  lemma RequestKeyIsRead(k: Key)
    requires OfRequest(k)
    ensures ReadKey(KeyText(k)) == Some(k)
  {
  }

  lemma TimeKeyIsRead(k: Key)
    requires OfTime(k)
    ensures ReadKey(KeyText(k)) == Some(k)
  {
  }

  lemma ResultKeyIsRead(k: Key)
    requires !OfRequest(k) && !OfTime(k)
    ensures ReadKey(KeyText(k)) == Some(k)
  {
  }

  /** No key can be mistaken for a comment or split in two. */
  lemma KeyIsPlain(k: Key)
    ensures '=' !in KeyText(k) && '\n' !in KeyText(k)
    ensures KeyText(k) != "" && KeyText(k)[0] != '#'
  {
  }

  lemma DecIntIsClean(n: int)
    ensures '\n' !in DecInt(n) && DropCr(DecInt(n)) == DecInt(n)
  {
    var s := DecInt(n);
    var mag := if n < 0 then -n else n;
    DecIsDigits(mag);
    assert s[|s| - 1] == Dec(mag)[|Dec(mag)| - 1];
    forall i | 0 <= i < |s| ensures s[i] != '\n' {
      if n < 0 && i > 0 {
        assert s[i] == Dec(mag)[i - 1];
      }
    }
  }
}
