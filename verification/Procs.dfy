/** The processes of one job: how each ended, and the `procs` and `exits` fields of the meta file. */
module Procs {
  import opened Base
  import opened Text

  /** What waitid said of a child; a process that was not reaped has no text. */
  datatype WaitStatus =
    | NotReaped | Exited(status: nat) | KilledBy(signo: nat) | DumpedBy(signo: nat) | OtherWait(code: int, status: nat)

  /** describe_wait. */
  function HowText(h: WaitStatus): string {
    match h
    case NotReaped => ""
    case Exited(n) => "exited:" + Dec(n)
    case KilledBy(n) => "killed:" + Dec(n)
    case DumpedBy(n) => "dumped:" + Dec(n)
    case OtherWait(c, n) => "wait:" + DecInt(c) + ":" + Dec(n)
  }

  /** The comparison with "exited:0" in the source is the comparison with exit status 0. */
  lemma CleanExitText(h: WaitStatus)
    ensures HowText(h) == "exited:0" <==> h == Exited(0)
  {
    assert HowText(Exited(0)) == "exited:0";
    assert !h.Exited? ==> HowText(h) == "" || HowText(h)[0] in "kdw";
    if h.Exited? && HowText(h) == "exited:0" {
      assert Dec(h.status) == HowText(h)[7..] == "0" == Dec(0);
      DecIsDigits(h.status);
      DecIsDigits(0);
    }
  }

  /** ProcRef. */
  datatype ProcRef = ProcRef(pid: int32, start: uint64, reaped: bool, grouped: bool, how: WaitStatus)

  // ---------- pid@start,pid@start ----------

  function Entry(p: ProcRef): string {
    DecInt(p.pid) + "@" + Dec(p.start)
  }

  /** What format_procs writes. */
  function Formatted(ps: seq<ProcRef>): string {
    if ps == [] then "" else Entry(ps[0]) + Tail(ps[1..])
  }

  function Tail(ps: seq<ProcRef>): string {
    if ps == [] then "" else "," + Entry(ps[0]) + Tail(ps[1..])
  }

  /** Only pids and start times are written. */
  lemma {:induction false} FormattedSame(ps: seq<ProcRef>, qs: seq<ProcRef>)
    requires |ps| == |qs| && forall i :: 0 <= i < |ps| ==> ps[i].pid == qs[i].pid && ps[i].start == qs[i].start
    ensures Formatted(ps) == Formatted(qs) && Tail(ps) == Tail(qs)
  {
    if ps != [] {
      FormattedSame(ps[1..], qs[1..]);
    }
  }

  lemma TailStep(ps: seq<ProcRef>, i: nat)
    requires i < |ps|
    ensures Tail(ps[i..]) == "," + Entry(ps[i]) + Tail(ps[i + 1..])
  {
    hide Entry;
    assert ps[i..][1..] == ps[i + 1..];
  }

  lemma NoTail(ps: seq<ProcRef>)
    ensures Tail(ps[|ps|..]) == ""
  {
  }

  /** The loop of format_procs. */
  method FormatProcs(ps: seq<ProcRef>) returns (out: string)
    ensures out == Formatted(ps)
  {
    hide Entry, Tail;
    out := "";
    for i := 0 to |ps|
      invariant i == 0 ==> out == ""
      invariant i > 0 ==> Formatted(ps) == out + Tail(ps[i..])
    {
      TailStep(ps, i);
      ghost var before, one, rest := out, Entry(ps[i]), Tail(ps[i + 1..]);
      if i > 0 {
        out := out + ",";
        assert before + ("," + one + rest) == out + one + rest;
      } else {
        assert out + one + rest == one + rest;
      }
      out := out + Entry(ps[i]);
    }
    NoTail(ps);
  }

  /** A process as its entry records it. */
  function Recorded(pid: int32, start: uint64): ProcRef {
    ProcRef(pid, start, false, false, NotReaped)
  }

  function NumberOrZero(s: string): uint64 {
    match ParsedU64(s)
    case Some(n) => n
    case None => 0
  }

  /** The flush of parse_procs: an entry without a positive pid is dropped. */
  function ReadEntry(cur: string): seq<ProcRef> {
    var at := Find(cur, '@');
    var pid := AsInt32(NumberOrZero(cur[..at]));
    var start := if at == |cur| then 0 else NumberOrZero(cur[at + 1..]);
    if pid > 0 then [Recorded(pid, start)] else []
  }

  function ReadEntries(entries: seq<string>): seq<ProcRef> {
    if entries == [] then [] else ReadEntry(entries[0]) + ReadEntries(entries[1..])
  }

  /** What parse_procs returns. */
  function ParsedProcs(text: string): seq<ProcRef> {
    ReadEntries(Split(text, ','))
  }

  /** The loop of parse_procs, one character at a time. */
  method ParseProcs(text: string) returns (out: seq<ProcRef>)
    ensures out == ParsedProcs(text)
  {
    hide ParsedProcs, ReadEntry;
    out := [];
    var cur := "";
    assert cur + text[0..] == text;
    for i := 0 to |text|
      invariant ',' !in cur
      invariant ParsedProcs(text) == out + ParsedProcs(cur + text[i..])
    {
      assert cur + text[i..] == cur + [text[i]] + text[i + 1..];
      if text[i] == ',' {
        SplitEntry(cur, text[i + 1..]);
        out := out + ReadEntry(cur);
        cur := "";
        assert cur + text[i + 1..] == text[i + 1..];
      } else {
        cur := cur + [text[i]];
      }
    }
    assert cur + text[|text|..] == cur;
    LastEntry(cur);
    out := out + ReadEntry(cur);
  }

  lemma SplitEntry(cur: string, rest: string)
    requires ',' !in cur
    ensures ParsedProcs(cur + [','] + rest) == ReadEntry(cur) + ParsedProcs(rest)
  {
    hide ReadEntry;
    FindAfter(cur, ',', rest);
    assert Split(cur + [','] + rest, ',') == [cur] + Split(rest, ',');
    assert ([cur] + Split(rest, ','))[1..] == Split(rest, ',');
  }

  lemma LastEntry(cur: string)
    requires ',' !in cur
    ensures ParsedProcs(cur) == ReadEntry(cur)
  {
    if cur == "" {
      assert !AllDigits("") || ParsedU64("") == None;
    } else {
      hide ReadEntry;
      assert Split(cur, ',') == [cur];
      assert [cur][1..] == [];
      assert ReadEntries([]) == [];
    }
  }

  // ---------- the round trip ----------

  /** The processes with a positive pid, as their entries record them. */
  function Positive(ps: seq<ProcRef>): (r: seq<ProcRef>)
    ensures |r| <= |ps|
    ensures |r| == |ps| ==> forall i :: 0 <= i < |ps| ==> ps[i].pid > 0 && r[i] == Recorded(ps[i].pid, ps[i].start)
    ensures (forall i :: 0 <= i < |ps| ==> ps[i].pid > 0) ==> |r| == |ps|
  {
    if ps == [] then [] else (if ps[0].pid > 0 then [Recorded(ps[0].pid, ps[0].start)] else []) + Positive(ps[1..])
  }

  /** The whole list, as its entries record it. */
  function AllRecorded(ps: seq<ProcRef>): (r: seq<ProcRef>)
    ensures |r| == |ps| && forall i :: 0 <= i < |ps| ==> r[i] == Recorded(ps[i].pid, ps[i].start)
  {
    seq(|ps|, i requires 0 <= i < |ps| => Recorded(ps[i].pid, ps[i].start))
  }

  /** Reading back the `procs` field gives the same list exactly when every pid is positive. */
  lemma ProcsRoundTrip(ps: seq<ProcRef>)
    ensures ParsedProcs(Formatted(ps)) == Positive(ps)
    ensures ParsedProcs(Formatted(ps)) == AllRecorded(ps) <==> forall i :: 0 <= i < |ps| ==> ps[i].pid > 0
  {
    hide ParsedProcs, Formatted, Positive, AllRecorded;
    ReadsFormatted(ps);
    if forall i :: 0 <= i < |ps| ==> ps[i].pid > 0 {
      assert Positive(ps) == AllRecorded(ps);
    }
  }

  lemma {:induction false} ReadsFormatted(ps: seq<ProcRef>)
    ensures ParsedProcs(Formatted(ps)) == Positive(ps)
  {
    hide Entry, ReadEntry;
    if ps == [] {
      LastEntry("");
      EmptyEntry();
    } else {
      EntryIsRead(ps[0]);
      ReadsFormatted(ps[1..]);
      if ps[1..] == [] {
        assert Formatted(ps) == Entry(ps[0]);
        LastEntry(Entry(ps[0]));
      } else {
        assert Formatted(ps) == Entry(ps[0]) + [','] + Formatted(ps[1..]);
        SplitEntry(Entry(ps[0]), Formatted(ps[1..]));
      }
    }
  }

  lemma EmptyEntry()
    ensures ReadEntry("") == []
  {
  }

  lemma EntryIsRead(p: ProcRef)
    ensures ',' !in Entry(p)
    ensures ReadEntry(Entry(p)) == if p.pid > 0 then [Recorded(p.pid, p.start)] else []
  {
    DecIsDigits(p.start);
    ParseInvertsDec(p.start);
    PidIsRead(p.pid);
    FindAfter(DecInt(p.pid), '@', Dec(p.start));
    AsInt32OfInt32(p.pid);
  }

  lemma PidIsRead(pid: int32)
    ensures '@' !in DecInt(pid) && ',' !in DecInt(pid)
    ensures NumberOrZero(DecInt(pid)) == if pid > 0 then pid else 0
  {
    if pid < 0 {
      var m: int := pid;
      DecIsDigits(-m);
      NegativeIsNotU64(pid);
    } else {
      DecIsDigits(pid);
      ParseInvertsDec(pid);
    }
  }

  // ---------- exits ----------

  /** What join_exits writes. */
  function ExitsText(ps: seq<ProcRef>): string {
    if ps == [] then "" else HowOrMark(ps[0]) + ExitsTail(ps[1..])
  }

  function ExitsTail(ps: seq<ProcRef>): string {
    if ps == [] then "" else "," + HowOrMark(ps[0]) + ExitsTail(ps[1..])
  }

  function HowOrMark(p: ProcRef): string {
    if HowText(p.how) == "" then "?" else HowText(p.how)
  }

  lemma ExitsTailStep(ps: seq<ProcRef>, i: nat)
    requires i < |ps|
    ensures ExitsTail(ps[i..]) == "," + HowOrMark(ps[i]) + ExitsTail(ps[i + 1..])
  {
    hide HowOrMark;
    assert ps[i..][1..] == ps[i + 1..];
  }

  lemma NoExitsTail(ps: seq<ProcRef>)
    ensures ExitsTail(ps[|ps|..]) == ""
  {
  }

  /** Between commas there is one text for each process, in order. */
  lemma {:induction false} ExitsSplit(ps: seq<ProcRef>)
    ensures Split(ExitsText(ps), ',') == seq(|ps|, i requires 0 <= i < |ps| => HowOrMark(ps[i]))
  {
    hide HowOrMark, ExitsText, Split;
    ExitsStep(ps);
    if ps != [] {
      ExitsSplit(ps[1..]);
      MarkIsPiece(ps[0]);
      if |ps| > 1 {
        PieceThenRest(HowOrMark(ps[0]), ExitsText(ps[1..]));
      } else {
        OnePiece(HowOrMark(ps[0]));
      }
    }
  }

  lemma ExitsStep(ps: seq<ProcRef>)
    ensures ps == [] ==> Split(ExitsText(ps), ',') == []
    ensures |ps| == 1 ==> ExitsText(ps) == HowOrMark(ps[0])
    ensures |ps| > 1 ==> ExitsText(ps) == HowOrMark(ps[0]) + [','] + ExitsText(ps[1..])
  {
    hide HowOrMark;
    if |ps| > 1 {
      TailIsText(ps[1..]);
    }
  }

  lemma TailIsText(ps: seq<ProcRef>)
    requires ps != []
    ensures ExitsTail(ps) == [','] + ExitsText(ps)
  {
    hide HowOrMark;
  }

  lemma OnePiece(a: string)
    requires a != "" && ',' !in a
    ensures Split(a, ',') == [a]
  {
  }

  lemma PieceThenRest(a: string, b: string)
    requires ',' !in a
    ensures Split(a + [','] + b, ',') == [a] + Split(b, ',')
  {
    FindAfter(a, ',', b);
  }

  lemma MarkIsPiece(p: ProcRef)
    ensures HowOrMark(p) != "" && ',' !in HowOrMark(p)
  {
    match p.how
    case NotReaped =>
    case Exited(n) => NoComma(n);
    case KilledBy(n) => NoComma(n);
    case DumpedBy(n) => NoComma(n);
    case OtherWait(c, n) =>
      NoComma(n);
      NoComma(if c < 0 then -c else c);
  }

  lemma NoComma(n: nat)
    ensures ',' !in Dec(n)
  {
    DecIsDigits(n);
  }

  /** The loop of join_exits. */
  method JoinExits(ps: seq<ProcRef>) returns (out: string)
    ensures out == ExitsText(ps)
  {
    hide HowOrMark, ExitsTail;
    out := "";
    for i := 0 to |ps|
      invariant i == 0 ==> out == ""
      invariant i > 0 ==> ExitsText(ps) == out + ExitsTail(ps[i..])
    {
      ExitsTailStep(ps, i);
      ghost var before, one, rest := out, HowOrMark(ps[i]), ExitsTail(ps[i + 1..]);
      if i > 0 {
        out := out + ",";
        assert before + ("," + one + rest) == out + one + rest;
      } else {
        assert out + one + rest == one + rest;
      }
      out := out + HowOrMark(ps[i]);
    }
    NoExitsTail(ps);
  }
}
