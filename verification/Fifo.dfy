/** on_fifo: how the bytes of the control FIFO become control lines. */
module Fifo {
  import opened Text

  const FIFO_LIMIT := 65536

  // ---------- framing, as a function of the byte stream ----------

  /** The lines that are complete in `s`, each without one trailing carriage return, without the empty ones. */
  function Lines(s: string): seq<string>
    decreases |s|
  {
    var at := Find(s, '\n');
    if at == |s| then [] else Kept(s[..at]) + Lines(s[at + 1..])
  }

  function Kept(line: string): seq<string> {
    if DropCr(line) == "" then [] else [DropCr(line)]
  }

  /** The unfinished last line. */
  function Residue(s: string): (r: string)
    ensures '\n' !in r && |r| <= |s|
    decreases |s|
  {
    var at := Find(s, '\n');
    if at == |s| then s else Residue(s[at + 1..])
  }

  /** Bytes that arrive later only complete the residue. */
  lemma {:induction false} LinesAppend(a: string, b: string)
    ensures Lines(a + b) == Lines(a) + Lines(Residue(a) + b)
    ensures Residue(a + b) == Residue(Residue(a) + b)
    decreases |a|
  {
    hide Kept, Lines, Residue, Find;
    FirstLine(a);
    var at := Find(a, '\n');
    if at < |a| {
      var line, rest := a[..at], a[at + 1..];
      FirstLine(a + b);
      FindAcross(a, b);
      assert (a + b)[..at] == line && (a + b)[at + 1..] == rest + b;
      LinesAppend(rest, b);
    }
  }

  lemma FindAcross(a: string, b: string)
    requires Find(a, '\n') < |a|
    ensures Find(a + b, '\n') == Find(a, '\n')
  {
    var line, rest := a[..Find(a, '\n')], a[Find(a, '\n') + 1..];
    assert a + b == line + ['\n'] + (rest + b);
    FindAfter(line, '\n', rest + b);
  }

  // ---------- the code ----------

  class ControlFifo {
    var buf: string

    constructor ()
      ensures buf == ""
    {
      buf := "";
    }

    /**
     * One call of on_fifo. `chunks` is what read returned until EAGAIN; the result is what handle_line is called
     * with. How the bytes are spread over the reads makes no difference; a drain over the limit loses everything.
     */
    method Drain(chunks: seq<string>) returns (lines: seq<string>)
      modifies this
      ensures Framing(lines, buf) == Drained(Framing([], old(buf)), Joined(chunks))
    {
      hide Kept, DropCr, Lines, Residue;
      for i := 0 to |chunks|
        invariant buf == old(buf) + Joined(chunks[..i])
      {
        assert chunks[..i + 1][..i] == chunks[..i];
        buf := buf + chunks[i];
      }
      assert chunks[..|chunks|] == chunks;
      if |buf| > FIFO_LIMIT {
        buf := "";
        NoLines();
      }
      lines := TakeLines();
    }

    /** The second loop of on_fifo: lines are cut off the front of the buffer while there is a newline. */
    method TakeLines() returns (lines: seq<string>)
      modifies this
      ensures lines == Lines(old(buf)) && buf == Residue(old(buf))
    {
      hide Kept, DropCr, Lines, Residue;
      lines := [];
      while true
        invariant Lines(old(buf)) == lines + Lines(buf) && Residue(old(buf)) == Residue(buf)
        decreases |buf|
      {
        var nl := Find(buf, '\n');
        FirstLine(buf);
        if nl == |buf| {
          break;
        }
        var line := DropCr(buf[..nl]);
        KeptIf(buf[..nl]);
        buf := buf[nl + 1..];
        if line != "" {
          lines := lines + [line];
        }
      }
    }
  }

  lemma NoLines()
    ensures Lines("") == [] && Residue("") == ""
  {
  }

  lemma FirstLine(s: string)
    ensures var at := Find(s, '\n');
      if at == |s| then Lines(s) == [] && Residue(s) == s
      else Lines(s) == Kept(s[..at]) + Lines(s[at + 1..]) && Residue(s) == Residue(s[at + 1..])
  {
  }

  lemma KeptIf(line: string)
    ensures Kept(line) == if DropCr(line) != "" then [DropCr(line)] else []
  {
  }

  function Joined(chunks: seq<string>): string {
    if chunks == [] then "" else Joined(chunks[..|chunks| - 1]) + chunks[|chunks| - 1]
  }

  // ---------- whole runs ----------

  datatype Framing = Framing(lines: seq<string>, buf: string)

  /** One drain: within the limit every complete line, over it nothing. */
  function Drained(f: Framing, bytes: string): Framing {
    var all := f.buf + bytes;
    if |all| <= FIFO_LIMIT then Framing(f.lines + Lines(all), Residue(all)) else Framing(f.lines, "")
  }

  /** All the drains of a run. */
  function DrainedAll(drains: seq<string>): Framing {
    if drains == [] then Framing([], "") else Drained(DrainedAll(drains[..|drains| - 1]), drains[|drains| - 1])
  }

  /** No drain finds more than the limit, 64 KiB, in the buffer. */
  ghost predicate WithinLimit(drains: seq<string>) {
    forall k :: 0 <= k < |drains| ==> |DrainedAll(drains[..k]).buf + drains[k]| <= 65536
  }

  /** Over a whole run the lines are those of the byte stream, however it was cut into drains. */
  lemma {:induction false} FramingIgnoresChunking(drains: seq<string>)
    requires WithinLimit(drains)
    ensures DrainedAll(drains) == Framing(Lines(Joined(drains)), Residue(Joined(drains)))
  {
    if drains == [] {
      assert Find("", '\n') == |""|;
    } else {
      hide Lines, Residue;
      var front, last := drains[..|drains| - 1], drains[|drains| - 1];
      forall k | 0 <= k < |front| ensures |DrainedAll(front[..k]).buf + front[k]| <= 65536 {
        assert front[..k] == drains[..k];
      }
      FramingIgnoresChunking(front);
      LinesAppend(Joined(front), last);
    }
  }

  /**
   * A drain over the limit costs exactly the residue and its own bytes: the lines before it stay, and what follows is
   * framed as if the stream began there.
   */
  lemma {:induction false} OverflowCostsOneDrain(a: seq<string>, over: string, b: seq<string>)
    requires |DrainedAll(a).buf + over| > 65536
    ensures DrainedAll(a + [over] + b) == Framing(DrainedAll(a).lines + DrainedAll(b).lines, DrainedAll(b).buf)
  {
    hide Lines, Residue;
    var all := a + [over] + b;
    if b == [] {
      assert all[..|all| - 1] == a;
    } else {
      var front, last := b[..|b| - 1], b[|b| - 1];
      assert all[..|all| - 1] == a + [over] + front;
      OverflowCostsOneDrain(a, over, front);
    }
  }

  // ---------- what a writer gets through ----------

  /** A line that on_fifo passes on as it is. */
  predicate Plain(line: string) {
    line != "" && '\n' !in line && line[|line| - 1] != '\r'
  }

  /** The bytes of a writer that ends each line with a newline, after a carriage return or not. */
  function Written(lines: seq<string>, crs: seq<bool>): string
    requires |crs| == |lines|
  {
    if lines == [] then ""
    else
      var n := |lines| - 1;
      Written(lines[..n], crs[..n]) + (lines[n] + Eol(crs[n]))
  }

  function Eol(cr: bool): string {
    if cr then "\r\n" else "\n"
  }

  /** The lines a writer ends with newlines are the lines handled, in order, and nothing is left over. */
  lemma {:induction false} WrittenLinesArrive(lines: seq<string>, crs: seq<bool>)
    requires |crs| == |lines| && forall i :: 0 <= i < |lines| ==> Plain(lines[i])
    ensures Lines(Written(lines, crs)) == lines && Residue(Written(lines, crs)) == ""
  {
    hide Lines, Residue, Plain, Written;
    WrittenUnfolds(lines, crs);
    if lines == [] {
      NoLines();
    } else {
      var n := |lines| - 1;
      WrittenLinesArrive(lines[..n], crs[..n]);
      OneMoreLine(Written(lines[..n], crs[..n]), lines[..n], lines[n], crs[n]);
      assert lines[..n] + [lines[n]] == lines;
    }
  }

  lemma WrittenUnfolds(lines: seq<string>, crs: seq<bool>)
    requires |crs| == |lines|
    ensures var n := |lines| - 1;
      Written(lines, crs) == if lines == [] then "" else Written(lines[..n], crs[..n]) + (lines[n] + Eol(crs[n]))
  {
  }

  lemma OneMoreLine(before: string, lines: seq<string>, line: string, cr: bool)
    requires Lines(before) == lines && Residue(before) == "" && Plain(line)
    ensures var s := before + (line + Eol(cr));
      Lines(s) == lines + [line] && Residue(s) == ""
  {
    hide Lines, Residue, Plain, Eol;
    var last := line + Eol(cr);
    LinesAppend(before, last);
    OneLine(line, cr);
    assert "" + last == last;
  }

  lemma OneLine(line: string, cr: bool)
    requires Plain(line)
    ensures var s := line + Eol(cr); Lines(s) == [line] && Residue(s) == ""
  {
    hide Lines, Residue;
    var front := if cr then line + "\r" else line;
    var s := line + Eol(cr);
    assert s == front + ['\n'] + "";
    FindAfter(front, '\n', "");
    FirstLine(s);
    NoLines();
    assert DropCr(front) == line;
  }
}
