/**
 * How jobs end. The verdict and the first stop reason determine the record; for a built-in job the verdict is
 * determined by what its workers did, so the record and the output are too.
 */
module Outcomes {
  import opened Base
  import opened MetaCodec
  import opened Procs
  import opened Validate
  import opened History
  import opened ControllerSpec
  import opened ControllerInv
  import opened ControllerKeeps
  import opened ControllerLaunch
  import opened ControllerRuns
  import opened Guarantees
  import opened Text
  import opened Worker
  import Fips180
  import R = Results
  import P = Protocol

  // ---------- outcomes ----------

  /** How the first stop reason names the state of a job that did not succeed. */
  ghost predicate NamedBy(stop: Stop, state: JobState) {
    && (state.TimedOut? <==> stop == StopTimedOut)
    && (state.Cancelled? <==> stop in {StopCancelled, StopShutdown})
    && (state.Failed? <==> stop in {StopFailed, NoStop})
  }

  /** The terminal state of a job is determined by the verdict and the first stop reason alone. */
  ghost predicate Outcome(v: R.Verdict, stop: Stop, outputWritten: bool, state: JobState) {
    if v.Good? then if v.body != "" && !outputWritten then state.Failed? else state.Completed?
    else NamedBy(stop, state)
  }

  function BodyOf(v: R.Verdict): string {
    if v.Good? then v.body else ""
  }

  /** The digest of a completed record says what the output says. */
  ghost predicate Digested(m: Meta, body: string) {
    m.state.Completed? && m.op in {OpSha256, OpCount} && body != "" ==> m.digest == TrimNewlines(body)
  }

  /** Success wins over a stop reason; otherwise the first stop reason names the state. */
  lemma FinalizeOutcome(o: Oracle, s: State, id: nat)
    requires Core(s) && id in s.live && s.live[id].meta.state.Running? && AllReaped(s.live[id].procs)
    requires id !in Finalize(o, s, id).world.lost
    ensures var v, w := VerdictOf(s.live[id], o(s.calls)), Finalize(o, s, id).world;
      && id in w.disk && Outcome(v, s.live[id].stop, o(s.calls).outputWritten, w.disk[id].state)
      && (w.disk[id].state.Completed? && BodyOf(v) != "" ==> id in w.outputs && w.outputs[id] == BodyOf(v))
      && w.disk[id].op == s.live[id].meta.op && Digested(w.disk[id], BodyOf(v))
  {
    hide Valid, Core, VerdictOf, Pids, Settle, AllReaped, Judged, TrimNewlines;
    var a := o(s.calls);
    var job := s.live[id];
    RunningSettles(o, s, id);
    JudgedState(job, a);
    MetaOfJob(s, id);
    SettleRecord(o, s.(calls := s.calls + 1), Judged(job, a), a, VerdictOf(job, a));
  }

  lemma JudgedState(job: LiveJob, a: Answer)
    ensures var v, m := VerdictOf(job, a), Judged(job, a);
      && m.id == job.meta.id && m.op == job.meta.op && Digested(m, BodyOf(v))
      && m.state == if v.Good? then Completed else StopState(job.stop)
  {
    hide Valid, VerdictOf, ExitsText, TrimNewlines, StateText;
  }

  lemma SettleRecord(o: Oracle, s: State, m: Meta, a: Answer, v: R.Verdict)
    requires m.id !in Settle(o, s, m, a, v).world.lost
    ensures var w := Settle(o, s, m, a, v).world;
      && m.id in w.disk
      && w.disk[m.id].state == (if v.Good? && v.body != "" && !a.outputWritten then Failed else m.state)
      && (v.Good? && v.body != "" && a.outputWritten ==> m.id in w.outputs && w.outputs[m.id] == v.body)
      && w.disk[m.id].op == m.op && (w.disk[m.id].state.Completed? ==> w.disk[m.id].digest == m.digest)
  {
    hide Valid, Save, Rule, Aimed;
    if v.Good? && v.body != "" {
      var t := Save(o, s, m.(state := Persisting));
      SaveSaves(o, s, m.(state := Persisting));
      SaveSaves(o, Emit(t, OutputWritten(m.id, v.body)), m);
      SaveSaves(o, t, m.(state := Failed, error := a.text));
    } else {
      SaveSaves(o, s, m);
    }
  }

  lemma SaveSaves(o: Oracle, s: State, m: Meta)
    ensures var t, w := Save(o, s, m), s.world;
      && t.world.outputs == w.outputs
      && (m.id !in t.world.lost ==> m.id !in w.lost && t.world.disk == w.disk[m.id := m])
      && w.lost <= t.world.lost && (t.world.disk == w.disk || t.world.disk == w.disk[m.id := m])
  {
    hide Valid, Rule, Aimed;
  }

  // ---------- end to end ----------

  /**
   * The record of a built-in job at its end, and its output. If every worker exited 0 it is completed, with the
   * specified function of the whole input as output, or failed if that could not be written, whatever the stop reason
   * is. Otherwise the first stop reason alone names the state.
   */
  ghost predicate EndsRight(w: World, id: nat, j: P.Job, workers: P.State, outputWritten: bool, stop: Stop)
    requires P.ValidJob(j)
  {
    && id in w.disk
    && (w.disk[id].state.Completed? <==> P.AllExitedZero(j, workers) && (HasText(j.op) ==> outputWritten))
    && (w.disk[id].state.Completed? && HasText(j.op) ==>
          id in w.outputs && w.outputs[id] == R.SpecOutput(j.op, j.file, j.ranges))
    && (w.disk[id].state.Completed? && j.op.OpCopy? ==> workers.output == Some(j.file))
    && (w.disk[id].state.Completed? && j.op.OpSha256? ==> w.disk[id].digest == HexText(Fips180.Digest(j.file)))
    && (w.disk[id].state.Completed? && j.op.OpCount? ==> w.disk[id].digest == Dec(|j.file|))
    && (P.AllExitedZero(j, workers) && HasText(j.op) && !outputWritten ==> w.disk[id].state.Failed?)
    && (!P.AllExitedZero(j, workers) ==> NamedBy(stop, w.disk[id].state))
  }

  /** The job as note_reap has marked it. */
  function JobAtEnd(job: LiveJob, pid: int32, how: WaitStatus): LiveJob {
    job.(procs := Mark(job.procs, pid, how))
  }

  /** The stop reason finalize sees: a process that did not exit 0 is itself a reason, if it is the first. */
  function StopAtEnd(job: LiveJob): Stop {
    if AnyBad(job.procs) && job.stop == NoStop then StopFailed else job.stop
  }

  /** The environment's answer to finalize, which request_stop may have preceded. */
  function AnswerAtEnd(o: Oracle, s: State, job: LiveJob): Answer {
    o(if AnyBad(job.procs) && job.stop == NoStop then s.calls + 1 else s.calls)
  }

  /** The reap that ends a job: the job leaves with the outcome of its verdict and its first stop reason. */
  lemma ReapOutcome(o: Oracle, s: State, pid: int32, how: WaitStatus, id: nat)
    requires Inv(s) && id in s.live && id !in NoteReap(o, s, pid, how).live &&
      id !in NoteReap(o, s, pid, how).world.lost
    ensures pid in s.pidOwner && s.pidOwner[pid] == id && s.live[id].meta.state.Running?
    ensures var job := JobAtEnd(s.live[id], pid, how);
      var a := AnswerAtEnd(o, s, job);
      var v, w := VerdictOf(job, a), NoteReap(o, s, pid, how).world;
      && AllReaped(job.procs)
      && id in w.disk && Outcome(v, StopAtEnd(job), a.outputWritten, w.disk[id].state)
      && (w.disk[id].state.Completed? && BodyOf(v) != "" ==> id in w.outputs && w.outputs[id] == BodyOf(v))
      && w.disk[id].op == job.meta.op && Digested(w.disk[id], BodyOf(v))
  {
    hide Valid, Core, Busy, Draining, Emit, RequestStop, Finalize, VerdictOf, Outcome, AllReaped, AnyBad, Marked, Mark,
         Digested;
    EmitFrame(s, Waited(pid));
    if pid in s.pidOwner {
      var x := s.pidOwner[pid];
      MarkKeeps(s, x, pid, how);
      var u := Emit(s, Waited(pid));
      var t := u.(live := u.live[x := u.live[x].(procs := Mark(u.live[x].procs, pid, how))]);
      MarkedOutcome(o, t, x);
    }
  }

  lemma MarkedOutcome(o: Oracle, t: State, id: nat)
    requires Core(t) && id in t.live && t.live[id].meta.state.Running?
    ensures var job := t.live[id];
      var u := if AnyBad(job.procs) && job.stop == NoStop then RequestStop(o, t, id, StopFailed) else t;
      var a := AnswerAtEnd(o, t, job);
      && u.live.Keys == t.live.Keys
      && (AllReaped(job.procs) ==>
            var f, v := Finalize(o, u, id), VerdictOf(job, a);
            && f.live == u.live - {id}
            && (id !in f.world.lost ==>
              && id in f.world.disk && Outcome(v, StopAtEnd(job), a.outputWritten, f.world.disk[id].state)
              && (f.world.disk[id].state.Completed? && BodyOf(v) != "" ==>
                    id in f.world.outputs && f.world.outputs[id] == BodyOf(v))
              && f.world.disk[id].op == job.meta.op && Digested(f.world.disk[id], BodyOf(v))))
  {
    hide Valid, Core, RequestStop, Finalize, VerdictOf, Outcome, AllReaped, AnyBad, Stopped, Ended, Digested;
    var job := t.live[id];
    var u := if AnyBad(job.procs) && job.stop == NoStop then RequestStop(o, t, id, StopFailed) else t;
    if AnyBad(job.procs) && job.stop == NoStop {
      RequestStopKeeps(o, t, id, StopFailed);
      StopSees(o, t, u, id);
    }
    if AllReaped(job.procs) {
      FinalizeKeeps(o, u, id);
      EndedLive(u, Finalize(o, u, id), id);
      SameVerdict(job, u.live[id], o(u.calls));
      if id !in Finalize(o, u, id).world.lost {
        FinalizeOutcome(o, u, id);
      }
    }
  }

  lemma StopSees(o: Oracle, t: State, u: State, id: nat)
    requires id in t.live && u == RequestStop(o, t, id, StopFailed) && t.live[id].stop == NoStop
    ensures u.calls == t.calls + 1 && u.live.Keys == t.live.Keys
    ensures u.live[id] == t.live[id].(stop := StopFailed, stopSentMs := u.live[id].stopSentMs)
  {
    hide Valid, Signals, Observe;
  }

  lemma EndedLive(u: State, f: State, id: nat)
    requires Ended(u, f, id)
    ensures f.live == u.live - {id}
  {
    hide Valid, Over;
  }

  /** The verdict does not depend on the stop reason. */
  lemma SameVerdict(a: LiveJob, b: LiveJob, ans: Answer)
    requires b.meta == a.meta && b.procs == a.procs && b.shm == a.shm
    ensures VerdictOf(b, ans) == VerdictOf(a, ans)
  {
    hide Valid, R.Judge, Hows;
  }

  // ---------- built-in jobs, end to end, over whole runs ----------

  /** The workers of a job on `file`, as launch_job sets them up. */
  function WorkersOf(m: GoodMeta, file: seq<byte>): (j: P.Job)
    requires !m.op.OpExec? && |file| == m.bytes
    ensures P.ValidJob(j)
  {
    ValidMakesAJob(m, file);
    P.Job(m.op, file, SlicesOf(m))
  }

  /** What finalize sees of the workers of a job that runs on `file`. */
  ghost predicate Observed(job: LiveJob, a: Answer, file: seq<byte>, workers: P.State)
    requires !job.meta.op.OpExec? && |file| == job.meta.bytes
  {
    R.Watched(WorkersOf(job.meta, file), workers, Hows(job.procs),
              R.Region(|SlicesOf(job.meta)|, a.done, a.slots), a.outputSize)
  }

  /**
   * So it is for every run of the controller, every interleaving of the workers, every kill, every pattern of short
   * reads and every I/O mode. The job leaves at step `k`, which reaps a process, and none of its saves was lost. Its
   * workers worked on `file`, of the size launch_job saw; of the shared region finalize sees what its acquire load
   * makes visible.
   */
  lemma BuiltInJobEndToEnd(o: Oracle, ss: seq<State>, ps: seq<Step>, k: nat, pid: int32, how: WaitStatus, id: nat,
                           file: seq<byte>, workers: P.State)
    requires Run(o, ss, ps) && k < |ps| && ps[k] == Do(Reap(pid, how))
    requires id in ss[k].live && id !in ss[k + 1].live && id !in ss[k + 1].world.lost
    requires !ss[k].live[id].meta.op.OpExec? && |file| == ss[k].live[id].meta.bytes
    requires var job := JobAtEnd(ss[k].live[id], pid, how); Observed(job, AnswerAtEnd(o, ss[k], job), file, workers)
    ensures var job := JobAtEnd(ss[k].live[id], pid, how);
      EndsRight(ss[k + 1].world, id, WorkersOf(job.meta, file), workers,
                AnswerAtEnd(o, ss[k], job).outputWritten, StopAtEnd(job))
  {
    hide Valid, RunInv, Enabled, Observed, EndsRight, JobAtEnd, AnswerAtEnd, StopAtEnd, NoteReap, WorkersOf;
    RunKeepsInv(o, ss, ps, k);
    InvOfRun(ss[k]);
    assert CanStep(o, ss[k], ps[k]);
    JobAtEndMeta(ss[k].live[id], pid, how);
    ReapEndsRight(o, ss[k], pid, how, id, file, workers);
  }

  /**
   * An exec job is completed exactly when the process whose reap ends it exited 0; otherwise its first stop reason
   * names the state.
   */
  lemma ExecJobEndToEnd(o: Oracle, ss: seq<State>, ps: seq<Step>, k: nat, pid: int32, how: WaitStatus, id: nat)
    requires Run(o, ss, ps) && k < |ps| && ps[k] == Do(Reap(pid, how))
    requires id in ss[k].live && id !in ss[k + 1].live && id !in ss[k + 1].world.lost
    requires ss[k].live[id].meta.op.OpExec?
    ensures id in ss[k + 1].world.disk
    ensures var state := ss[k + 1].world.disk[id].state;
      && (state.Completed? <==> how == Exited(0))
      && (how != Exited(0) ==> NamedBy(StopAtEnd(JobAtEnd(ss[k].live[id], pid, how)), state))
  {
    hide Valid, RunInv, Enabled, NoteReap, NamedBy, StopAtEnd, JobAtEnd;
    RunKeepsInv(o, ss, ps, k);
    InvOfRun(ss[k]);
    assert CanStep(o, ss[k], ps[k]);
    ExecReapEnds(o, ss[k], pid, how, id);
  }

  lemma ExecReapEnds(o: Oracle, s: State, pid: int32, how: WaitStatus, id: nat)
    requires Inv(s) && id in s.live && id !in NoteReap(o, s, pid, how).live &&
      id !in NoteReap(o, s, pid, how).world.lost
    requires s.live[id].meta.op.OpExec?
    ensures var w := NoteReap(o, s, pid, how).world;
      && id in w.disk && (w.disk[id].state.Completed? <==> how == Exited(0))
      && (how != Exited(0) ==> NamedBy(StopAtEnd(JobAtEnd(s.live[id], pid, how)), w.disk[id].state))
  {
    ValidFitsTheRegion(s.live[id].meta);
    hide Valid, Core, Draining, NoteReap, AnswerAtEnd, StopAtEnd, SlicesOf, VerdictOf;
    ReapOutcome(o, s, pid, how, id);
    ShapeOf(s, id);
    var job := JobAtEnd(s.live[id], pid, how);
    LastProcess(s.live[id].procs, pid, how);
    ExecVerdict(job, AnswerAtEnd(o, s, job));
    NamedIsNotCompleted(StopAtEnd(job));
  }

  lemma NamedIsNotCompleted(stop: Stop)
    ensures forall state :: NamedBy(stop, state) ==> !state.Completed?
  {
  }

  /** A single process that was waited for, and is reaped now, is the one that was reaped. */
  lemma LastProcess(ps: seq<ProcRef>, pid: int32, how: WaitStatus)
    requires |ps| == 1 && !AllReaped(ps) && AllReaped(Mark(ps, pid, how))
    ensures Hows(Mark(ps, pid, how)) == [how]
  {
    assert Mark(ps, pid, how)[0].how == how;
  }

  lemma ExecVerdict(job: LiveJob, a: Answer)
    requires job.meta.op.OpExec? && |job.procs| == 1
    ensures var v := VerdictOf(job, a);
      && (v.Good? <==> Hows(job.procs) == [Exited(0)]) && (v.Good? ==> v.body == "")
  {
    hide Valid;
  }

  lemma JobAtEndMeta(job: LiveJob, pid: int32, how: WaitStatus)
    ensures JobAtEnd(job, pid, how).meta == job.meta
  {
  }

  lemma ReapEndsRight(o: Oracle, s: State, pid: int32, how: WaitStatus, id: nat, file: seq<byte>, workers: P.State)
    requires Inv(s) && id in s.live && id !in NoteReap(o, s, pid, how).live &&
      id !in NoteReap(o, s, pid, how).world.lost
    requires !s.live[id].meta.op.OpExec? && |file| == s.live[id].meta.bytes
    requires var job := JobAtEnd(s.live[id], pid, how); Observed(job, AnswerAtEnd(o, s, job), file, workers)
    ensures var job := JobAtEnd(s.live[id], pid, how);
      EndsRight(NoteReap(o, s, pid, how).world, id, WorkersOf(job.meta, file), workers,
                AnswerAtEnd(o, s, job).outputWritten, StopAtEnd(job))
  {
    hide Valid, Core, Busy, Draining, NoteReap, VerdictOf, AllReaped, AnswerAtEnd, StopAtEnd, Mark, Observed, WorkersOf,
         Digested, R.SpecOutput, HexText, Fips180.Digest, Dec, P.AllExitedZero, SlicesOf;
    ReapOutcome(o, s, pid, how, id);
    ShapeOf(s, id);
    MarkKeepsShape(s.live[id].meta, s.live[id].procs, s.live[id].shm, pid, how);
    var job := JobAtEnd(s.live[id], pid, how);
    var a := AnswerAtEnd(o, s, job);
    ObservedIsGathered(job, a, file, workers);
    WorkersShape(job.meta, file);
    VerdictIsRight(job, a, WorkersOf(job.meta, file), workers);
    DigestIsRight(NoteReap(o, s, pid, how).world.disk[id], WorkersOf(job.meta, file), BodyOf(VerdictOf(job, a)));
  }

  /** Without its newline the output of a sha256 or count job is the digest of the record. */
  lemma DigestIsRight(m: Meta, j: P.Job, body: string)
    requires P.ValidJob(j) && Digested(m, body) && m.op == j.op
    requires m.state.Completed? && HasText(j.op) ==> body == R.SpecOutput(j.op, j.file, j.ranges)
    ensures m.state.Completed? && j.op.OpSha256? ==> m.digest == HexText(Fips180.Digest(j.file))
    ensures m.state.Completed? && j.op.OpCount? ==> m.digest == Dec(|j.file|)
  {
    hide P.ValidJob, Fips180.Digest, HexText, Dec, TrimNewlines;
    if m.state.Completed? && j.op.OpSha256? {
      var hex := HexText(Fips180.Digest(j.file));
      HexTextReads(Fips180.Digest(j.file), 31);
      TrimOne(hex);
    }
    if m.state.Completed? && j.op.OpCount? {
      DecIsDigits(|j.file|);
      TrimOne(Dec(|j.file|));
    }
  }

  lemma TrimOne(s: string)
    requires s != "" && s[|s| - 1] != '\n'
    ensures TrimNewlines(s + "\n") == s
  {
    assert (s + "\n")[..|s|] == s;
  }

  lemma WorkersShape(m: GoodMeta, file: seq<byte>)
    requires !m.op.OpExec? && |file| == m.bytes
    ensures WorkersOf(m, file).op == m.op
  {
  }

  lemma ObservedIsGathered(job: LiveJob, a: Answer, file: seq<byte>, workers: P.State)
    requires !job.meta.op.OpExec? && |file| == job.meta.bytes && Observed(job, a, file, workers)
    requires Shaped(job.meta, job.procs, job.shm)
    ensures R.Gathered(WorkersOf(job.meta, file), workers, EvidenceOf(job, a))
  {
    hide Valid, R.Watched, P.ValidJob, SlicesOf, Formatted, Hows;
  }

  lemma VerdictIsRight(job: LiveJob, a: Answer, j: P.Job, workers: P.State)
    requires P.ValidJob(j) && R.Gathered(j, workers, EvidenceOf(job, a))
    ensures |workers.phases| == |j.ranges|
    ensures var v := VerdictOf(job, a);
      && (v.Good? <==> P.AllExitedZero(j, workers))
      && (v.Good? ==> (v.body != "" <==> HasText(j.op)))
      && (v.Good? && HasText(j.op) ==> v.body == R.SpecOutput(j.op, j.file, j.ranges))
      && (v.Good? && j.op.OpCopy? ==> workers.output == Some(j.file))
  {
    hide Valid, P.ValidJob, R.SpecOutput, R.Body, R.Accepts, R.Why, EvidenceOf, P.AllExitedZero;
    EvidenceShape(job, a);
    var e := EvidenceOf(job, a);
    GatheredOp(j, workers, e);
    R.CompletedMeansCorrect(j, workers, e);
    hide R.Gathered;
    if R.Accepts(e) {
      BodyWhenText(e, j.op);
    }
  }

  lemma BodyWhenText(e: R.Evidence, op: Op)
    requires R.WellShaped(e) && R.Accepts(e) && e.op == op && op in {OpSha256, OpChunkSha256, OpCount, OpCopy}
    ensures R.Body(e) != "" <==> HasText(op)
  {
    if HasText(op) {
      BodyIsText(e);
    }
  }

  lemma EvidenceShape(job: LiveJob, a: Answer)
    ensures R.WellShaped(EvidenceOf(job, a))
  {
    hide Valid;
  }

  lemma GatheredOp(j: P.Job, workers: P.State, e: R.Evidence)
    requires P.ValidJob(j) && R.Gathered(j, workers, e)
    ensures e.op == j.op && |workers.phases| == |j.ranges| && j.op in {OpSha256, OpChunkSha256, OpCount, OpCopy}
  {
  }
}
