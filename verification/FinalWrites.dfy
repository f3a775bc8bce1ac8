/**
 * The end of a job of a run on a file system that can lose power: the records that finalize puts on the log are the
 * ones that are written to the job's directory, and wherever power fails a record that says completed has its output.
 */
module FinalWrites {
  import opened Base
  import opened MetaCodec
  import opened Procs
  import opened Validate
  import opened History
  import opened ControllerSpec
  import opened ControllerLog
  import opened ControllerInv
  import opened ControllerRuns
  import opened Guarantees
  import opened Records
  import opened CleanRecords
  import opened CleanRuns
  import opened ControllerKeeps
  import opened Outcomes
  import opened Requests
  import opened Text
  import C = CrashFs
  import P = Protocol
  import R = Results
  import T = TwoWriters

  function SaveOf(o: Oracle, calls: nat, m: Meta): Effect {
    if o(calls).wrote then Saved(m) else SaveLost(m)
  }

  /** The writes of finalize, in their order; a text result is in place before the record says completed. */
  function FinalEffects(o: Oracle, calls: nat, m: Meta, a: Answer, v: R.Verdict): seq<Effect> {
    if v.Good? && v.body != "" then
      [SaveOf(o, calls, m.(state := Persisting))] +
      if a.outputWritten then [OutputWritten(m.id, v.body), SaveOf(o, calls + 1, m)]
      else [SaveOf(o, calls + 1, m.(state := Failed, error := a.text))]
    else [SaveOf(o, calls, m)]
  }

  lemma FinalizeWrites(o: Oracle, s: State, id: nat)
    requires id in s.live && !s.live[id].finished
    ensures var a := o(s.calls);
      Finalize(o, s, id).log ==
      s.log + FinalEffects(o, s.calls + 1, Judged(s.live[id], a), a, VerdictOf(s.live[id], a))
  {
    hide Valid, Judged, VerdictOf, Settle, FinalEffects;
    var a := o(s.calls);
    SettleWrites(o, s.(calls := s.calls + 1), Judged(s.live[id], a), a, VerdictOf(s.live[id], a));
  }

  lemma SettleWrites(o: Oracle, s: State, m: Meta, a: Answer, v: R.Verdict)
    ensures Settle(o, s, m, a, v).log == s.log + FinalEffects(o, s.calls, m, a, v)
  {
    hide Valid, Save, SaveOf, Observe;
    SaveWrites(o, s, m);
    if v.Good? && v.body != "" {
      var p := m.(state := Persisting);
      var t := Save(o, s, p);
      SaveWrites(o, s, p);
      SaveWrites(o, Emit(t, OutputWritten(m.id, v.body)), m);
      SaveWrites(o, t, m.(state := Failed, error := a.text));
    }
  }

  lemma SaveWrites(o: Oracle, s: State, m: Meta)
    ensures var t := Save(o, s, m); t.log == s.log + [SaveOf(o, s.calls, m)] && t.calls == s.calls + 1
  {
    hide Valid, Observe;
  }

  /** The record of a running job is not a completed one, whether or not it was replaced behind the job's back. */
  lemma LiveRecordIsUnfinished(o: Oracle, ss: seq<State>, ps: seq<Step>, k: nat, id: nat)
    requires Run(o, ss, ps) && k < |ss| && id in ss[k].live && id !in ss[k].world.lost
    ensures id in ss[k].world.disk
    ensures NewlineFree(ss[k].world.disk[id]) ==> C.Unfinished(ss[k].world.disk[id])
  {
    hide Valid, RunInv, Inv, Run, NewlineFree;
    RecordTrueExactly(o, ss, ps, k, id);
    RunKeepsInv(o, ss, ps, k);
    InvOfRun(ss[k]);
    LiveState(ss[k], id);
  }

  lemma LiveState(s: State, id: nat)
    requires Core(s) && id in s.live
    ensures s.live[id].meta.state.Queued? || s.live[id].meta.state.Running?
  {
    hide Valid, Shared, OnDisk, SlicesOf, Shaped, StopsMatch, Tracked, AllReaped;
    assert JobInv(s, id);
  }

  // ---------- the reap that ends a job ----------

  /** The job as finalize finds it. */
  function EndingJob(job: LiveJob, pid: int32, how: WaitStatus): LiveJob {
    var j := JobAtEnd(job, pid, how);
    j.(stop := StopAtEnd(j))
  }

  /** The log of the reap that ends a job ends with the writes of finalize. */
  lemma ReapWrites(o: Oracle, s: State, pid: int32, how: WaitStatus, id: nat) returns (n: nat, calls: nat)
    requires Inv(s) && id in s.live && id !in NoteReap(o, s, pid, how).live
    ensures var job := EndingJob(s.live[id], pid, how);
      var a := AnswerAtEnd(o, s, JobAtEnd(s.live[id], pid, how));
      var log := NoteReap(o, s, pid, how).log;
      n <= |log| && log[n..] == FinalEffects(o, calls, Judged(job, a), a, VerdictOf(job, a))
  {
    hide Valid, Core, Busy, Draining, Emit, RequestStop, Finalize, VerdictOf, Judged, AllReaped, AnyBad, Marked, Mark,
         FinalEffects;
    n, calls := 0, 0;
    EmitFrame(s, Waited(pid));
    if pid in s.pidOwner {
      var x := s.pidOwner[pid];
      MarkKeeps(s, x, pid, how);
      var u := Emit(s, Waited(pid));
      var t := u.(live := u.live[x := u.live[x].(procs := Mark(u.live[x].procs, pid, how))]);
      n, calls := MarkedWrites(o, t, x);
    }
  }

  lemma MarkedWrites(o: Oracle, t: State, id: nat) returns (n: nat, calls: nat)
    requires Core(t) && id in t.live && t.live[id].meta.state.Running?
    ensures var job := t.live[id];
      var u := if AnyBad(job.procs) && job.stop == NoStop then RequestStop(o, t, id, StopFailed) else t;
      var a, end := AnswerAtEnd(o, t, job), job.(stop := StopAtEnd(job));
      && u.live.Keys == t.live.Keys
      && (AllReaped(job.procs) ==>
            var f := Finalize(o, u, id);
            && f.live == u.live - {id} && n <= |f.log|
            && f.log[n..] == FinalEffects(o, calls, Judged(end, a), a, VerdictOf(end, a)))
  {
    hide Valid, Core, RequestStop, Finalize, VerdictOf, Judged, AllReaped, AnyBad, Stopped, Ended, FinalEffects;
    var job := t.live[id];
    var u := if AnyBad(job.procs) && job.stop == NoStop then RequestStop(o, t, id, StopFailed) else t;
    var a, end := AnswerAtEnd(o, t, job), job.(stop := StopAtEnd(job));
    if AnyBad(job.procs) && job.stop == NoStop {
      RequestStopKeeps(o, t, id, StopFailed);
      StopSees(o, t, u, id);
    }
    n, calls := |u.log|, u.calls + 1;
    if AllReaped(job.procs) {
      FinalizeKeeps(o, u, id);
      EndedLive(u, Finalize(o, u, id), id);
      LiveIsOwn(u, id);
      SameJudgement(end, u.live[id], o(u.calls));
      FinalizeWrites(o, u, id);
    }
  }

  /** The time of the stop signal is not part of the judgement. */
  lemma SameJudgement(a: LiveJob, b: LiveJob, ans: Answer)
    requires b == a.(stopSentMs := b.stopSentMs)
    ensures Judged(b, ans) == Judged(a, ans) && VerdictOf(b, ans) == VerdictOf(a, ans)
  {
    hide Valid, R.Judge, ExitsText, StateText, TrimNewlines;
  }

  /**
   * The record finalize saves last: the job's own, with the time, one text for each process in `exits`, and an error
   * unless it is completed; a completed one has none.
   */
  ghost predicate Filed(was: Meta, procs: seq<ProcRef>, a: Answer, m: Meta) {
    && m == was.(exits := m.exits, finishedMs := a.realtime, state := m.state, error := m.error, digest := m.digest)
    && Split(m.exits, ',') == seq(|procs|, i requires 0 <= i < |procs| => HowOrMark(procs[i]))
    && Terminal(m.state) && (m.state.Completed? ==> m.error == "")
    && (m.error == "" ==> m.state.Completed? || (a.text == "" && !a.outputWritten))
    && (m.digest != was.digest ==> m.op in {OpSha256, OpCount})
  }

  lemma JudgedIsFiled(job: LiveJob, a: Answer)
    ensures var v, m := VerdictOf(job, a), Judged(job, a);
      && Filed(job.meta, job.procs, a, m)
      && (v.Good? && v.body != "" && !a.outputWritten ==>
            Filed(job.meta, job.procs, a, m.(state := Failed, error := a.text)))
  {
    hide Valid, VerdictOf, ExitsText, TrimNewlines, Split, HowOrMark;
    ExitsSplit(job.procs);
  }

  lemma LastEffect(o: Oracle, calls: nat, m: Meta, a: Answer, v: R.Verdict) returns (last: Meta)
    ensures var e := FinalEffects(o, calls, m, a, v);
      |e| > 0 && e[|e| - 1] in {Saved(last), SaveLost(last)}
    ensures last == if v.Good? && v.body != "" && !a.outputWritten then m.(state := Failed, error := a.text) else m
  {
    hide Valid;
    last := if v.Good? && v.body != "" && !a.outputWritten then m.(state := Failed, error := a.text) else m;
  }

  /** Over every run, the step at which a job leaves ends with the save of that record, which may be lost. */
  lemma FinalRecord(o: Oracle, ss: seq<State>, ps: seq<Step>, k: nat, pid: int32, how: WaitStatus, id: nat)
    returns (last: Meta)
    requires Run(o, ss, ps) && k < |ps| && ps[k] == Do(Reap(pid, how)) && id in ss[k].live && id !in ss[k + 1].live
    ensures var log, job := ss[k + 1].log, JobAtEnd(ss[k].live[id], pid, how);
      && |log| > |ss[k].log| && log[|log| - 1] in {Saved(last), SaveLost(last)}
      && Filed(job.meta, job.procs, AnswerAtEnd(o, ss[k], job), last)
  {
    hide Valid, Run, RunInv, Inv, NoteReap, FinalEffects, Judged, VerdictOf, Filed, AnswerAtEnd, EndingJob;
    StepRuns(o, ss, ps, k);
    RunLogGrows(o, ss, ps, k, k + 1);
    var s, log := ss[k], ss[k + 1].log;
    var job, a := EndingJob(s.live[id], pid, how), AnswerAtEnd(o, s, JobAtEnd(s.live[id], pid, how));
    var n, calls := ReapWrites(o, s, pid, how, id);
    JudgedIsFiled(job, a);
    last := LastEffect(o, calls, Judged(job, a), a, VerdictOf(job, a));
    assert log[|log| - 1] == log[n..][|log| - n - 1];
    EndingIs(s.live[id], pid, how);
    WaitedFirst(o, s, pid, how);
  }

  lemma EndingIs(job: LiveJob, pid: int32, how: WaitStatus)
    ensures var e, j := EndingJob(job, pid, how), JobAtEnd(job, pid, how); e.meta == j.meta && e.procs == j.procs
  {
  }

  lemma WaitedFirst(o: Oracle, s: State, pid: int32, how: WaitStatus)
    ensures |NoteReap(o, s, pid, how).log| > |s.log|
  {
    hide Valid, Replay, RequestStop, Finalize, Mark, AllReaped, AnyBad, Observe;
    var s1 := Emit(s, Waited(pid));
    if pid in s1.pidOwner && s1.pidOwner[pid] in s1.live {
      var id := s1.pidOwner[pid];
      var ps := Mark(s1.live[id].procs, pid, how);
      var t := s1.(live := s1.live[id := s1.live[id].(procs := ps)]);
      RequestStopGrows(o, t, id, StopFailed);
      FinalizeGrows(o, t, id);
      FinalizeGrows(o, RequestStop(o, t, id, StopFailed), id);
    }
  }

  /** The records that a stretch of the log tries to save, in order. */
  function SavesOf(effects: seq<Effect>): seq<Meta> {
    if effects == [] then []
    else
      (if effects[0].Saved? || effects[0].SaveLost? then [effects[0].meta] else []) + SavesOf(effects[1..])
  }

  lemma SavesOfFinal(o: Oracle, calls: nat, m: Meta, a: Answer, v: R.Verdict)
    ensures SavesOf(FinalEffects(o, calls, m, a, v)) ==
      if v.Rejected? || v.body == "" then [m]
      else [m.(state := Persisting), if a.outputWritten then m else m.(state := Failed, error := a.text)]
  {
    var e := FinalEffects(o, calls, m, a, v);
    if v.Rejected? || v.body == "" {
      assert SavesOf(e[1..]) == [];
    } else if a.outputWritten {
      assert e[1..][1..] == [SaveOf(o, calls + 1, m)] && e[1..][1..][1..] == [];
      assert SavesOf(e[1..][1..]) == [m];
      assert SavesOf(e[1..]) == [m];
    } else {
      var failed := m.(state := Failed, error := a.text);
      assert e[1..] == [SaveOf(o, calls + 1, failed)] && e[1..][1..] == [];
      assert SavesOf(e[1..]) == [failed];
    }
  }

  /** What finalize saves of a job of a run is clean, if the environment's texts are. */
  lemma FinalIsClean(o: Oracle, ss: seq<State>, ps: seq<Step>, k: nat, id: nat, job: LiveJob, a: Answer)
    requires Run(o, ss, ps) && k < |ss| && CleanOracle(o) && CreatedClean(ps) && CleanAnswer(a)
    requires id in ss[k].live && job.meta == ss[k].live[id].meta
    ensures NewlineFree(Judged(job, a)) && '\n' !in a.text
    ensures id in ss[k].world.disk ==> NewlineFree(ss[k].world.disk[id])
  {
    hide Valid, Run, CleanOracle, CreatedClean, Judged, Clean, Tidy, NewlineFree;
    RunTidy(o, ss, ps, k);
    LiveIsTidy(ss[k], id);
    JudgedIsTidy(job, a);
    TidyIsFree(Judged(job, a));
    if id in ss[k].world.disk {
      DiskIsTidy(ss[k], id);
      TidyIsFree(ss[k].world.disk[id]);
    }
  }

  lemma TidyIsFree(m: Meta)
    requires Tidy(m)
    ensures NewlineFree(m)
  {
    TidyIsClean(m);
    hide Tidy, CleanField;
    CleanHasNoNewline(m);
  }

  // ---------- on disk ----------

  /** The reap at step `k` of a clean run ends the job `id`; finalize finds `job` and is answered `a`. */
  ghost predicate EndsAt(o: Oracle, ss: seq<State>, ps: seq<Step>, k: nat, pid: int32, how: WaitStatus, id: nat,
                         job: LiveJob, a: Answer)
  {
    && Run(o, ss, ps) && CleanOracle(o) && CreatedClean(ps)
    && k < |ps| && ps[k] == Do(Reap(pid, how)) && id in ss[k].live && id !in ss[k + 1].live
    && job == EndingJob(ss[k].live[id], pid, how)
    && a == AnswerAtEnd(o, ss[k], JobAtEnd(ss[k].live[id], pid, how))
  }

  /** What it saves is clean, and is what the log of the run ends with. */
  lemma EndSaves(o: Oracle, ss: seq<State>, ps: seq<Step>, k: nat, pid: int32, how: WaitStatus, id: nat,
                 job: LiveJob, a: Answer) returns (n: nat)
    requires EndsAt(o, ss, ps, k, pid, how, id, job, a)
    ensures |ss| == |ps| + 1 && k < |ps| && id in ss[k].live && job.meta == ss[k].live[id].meta
    ensures NewlineFree(Judged(job, a)) && '\n' !in a.text
    ensures id in ss[k].world.disk ==> NewlineFree(ss[k].world.disk[id])
    ensures n <= |ss[k + 1].log|
    ensures var v, m := VerdictOf(job, a), Judged(job, a);
      SavesOf(ss[k + 1].log[n..]) ==
      if v.Rejected? || v.body == "" then [m]
      else [m.(state := Persisting), if a.outputWritten then m else m.(state := Failed, error := a.text)]
  {
    assert |ss| == |ps| + 1;
    hide Run, NewlineFree, Judged, VerdictOf, CleanOracle, CreatedClean, AnswerAtEnd, EndingJob, SavesOf, JobAtEnd;
    EndingMeta(ss[k].live[id], pid, how);
    AnswerIsClean(o, ss[k], JobAtEnd(ss[k].live[id], pid, how));
    FinalIsClean(o, ss, ps, k, id, job, a);
    var calls;
    n, calls := StepWrites(o, ss, ps, k, pid, how, id);
    SavesOfFinal(o, calls, Judged(job, a), a, VerdictOf(job, a));
  }

  /**
   * The reap at step `k` ends a job whose result is a text, on a directory that durably holds the job's record. The
   * records it saves are those of the run's log, and wherever power fails a record that says completed has its output.
   */
  method PersistFinal(dir: C.JobDir, meta: string, output: string, metaTmp: string, outputTmp: string,
                      job: LiveJob, a: Answer,
                      ghost o: Oracle, ghost ss: seq<State>, ghost ps: seq<Step>, ghost k: nat,
                      ghost pid: int32, ghost how: WaitStatus, ghost id: nat)
    returns (written: bool, saves: seq<Meta>, ghost n: nat)
    requires EndsAt(o, ss, ps, k, pid, how, id, job, a) && id !in ss[k].world.lost
    requires VerdictOf(job, a).Good? && VerdictOf(job, a).body != ""
    requires C.Valid(dir.fs, dir.temps) && {metaTmp, outputTmp} <= dir.temps
    requires meta !in dir.temps && output !in dir.temps && meta != output
    requires id in ss[k].world.disk ==> C.Durable(dir.fs, meta, MetaToText(ss[k].world.disk[id]))
    modifies dir
    ensures |old(dir.trail)| <= |dir.trail| && dir.trail[..|old(dir.trail)|] == old(dir.trail)
    ensures forall i :: |old(dir.trail)| <= i < |dir.trail| ==>
      C.CompletedIsComplete(dir.trail[i], meta, output, VerdictOf(job, a).body)
    ensures n <= |ss[k + 1].log| && (written == a.outputWritten ==> SavesOf(ss[k + 1].log[n..]) == saves)
  {
    n := EndSaves(o, ss, ps, k, pid, how, id, job, a);
    LiveRecordIsUnfinished(o, ss, ps, k, id);
    hide EndsAt, NewlineFree, Judged, VerdictOf, MetaToText, C.Valid, C.Durable, C.CompletedIsComplete, C.NotCompleted,
         SavesOf;
    C.DurableIsNotCompleted(dir.fs, meta, ss[k].world.disk[id]);
    written, saves :=
      dir.PersistResult(meta, output, metaTmp, outputTmp, Judged(job, a), a.text, VerdictOf(job, a).body);
  }

  /** The bytes of a file, as a directory holds them. */
  function AsText(file: seq<byte>): string {
    seq(|file|, i requires 0 <= i < |file| => file[i] as int as char)
  }

  /**
   * The reap at step `k` ends a copy job. Before it the worker published the file while the controller saved other
   * records of the job, in any interleaving `qs`; the worker exits 0 only if its publish reported success. Then the
   * controller saves the one record the run's log has. Wherever power fails, before or during that save, a record that
   * says completed has the whole file as its output.
   */
  method CopyFinal(dir: C.JobDir, meta: string, output: string, metaTmp: string, job: LiveJob, a: Answer,
                   ghost file: seq<byte>, ghost workers: P.State, ghost qs: seq<T.Pair>, ghost ms: seq<T.Move>,
                   ghost o: Oracle, ghost ss: seq<State>, ghost ps: seq<Step>, ghost k: nat,
                   ghost pid: int32, ghost how: WaitStatus, ghost id: nat)
    returns (saves: seq<Meta>, ghost n: nat)
    requires EndsAt(o, ss, ps, k, pid, how, id, job, a)
    requires job.meta.op.OpCopy? && |file| == job.meta.bytes && Observed(job, a, file, workers)
    requires T.Interleaving(qs, ms, dir.temps) && dir.fs == qs[|ms|].fs
    requires qs[0].worker.name == output && qs[0].worker.data == AsText(file)
    requires qs[0].controller.name == meta && qs[0].controller.tmp == metaTmp
    requires qs[|ms|].worker.at.Settled? || !CleanExit(job.meta, file, workers)
    modifies dir
    ensures |old(dir.trail)| <= |dir.trail| && dir.trail[..|old(dir.trail)|] == old(dir.trail)
    ensures forall i :: 0 <= i < |qs| ==> C.CompletedIsComplete(qs[i].fs, meta, output, AsText(file))
    ensures forall i :: |old(dir.trail)| <= i < |dir.trail| ==>
      C.CompletedIsComplete(dir.trail[i], meta, output, AsText(file))
    ensures n <= |ss[k + 1].log| && SavesOf(ss[k + 1].log[n..]) == saves
  {
    ghost var temps := dir.temps;
    n := EndSaves(o, ss, ps, k, pid, how, id, job, a);
    GoodExactly(o, ss, ps, k, pid, how, id, job, a, file, workers);
    hide EndsAt, NewlineFree, Judged, VerdictOf, C.Valid, C.Durable, C.CompletedIsComplete, C.NotCompleted, SavesOf,
         T.Interleaving, Observed, CleanExit;
    forall i | 0 <= i < |qs| ensures C.CompletedIsComplete(qs[i].fs, meta, output, AsText(file)) {
      T.PublishedIsDurable(qs, ms, temps, i);
    }
    T.PublishedIsDurable(qs, ms, temps, |ms|);
    T.InterleavingPlaces(qs, ms, temps);
    if VerdictOf(job, a).Good? {
      dir.SaveFinal(meta, metaTmp, Judged(job, a), output, AsText(file));
    } else {
      RejectedIsUnfinished(job, a);
      dir.SaveUnfinished(meta, metaTmp, Judged(job, a), output, AsText(file));
    }
    saves := [Judged(job, a)];
  }

  /** Every worker of the job on `file` exited 0. */
  ghost predicate CleanExit(m: GoodMeta, file: seq<byte>, workers: P.State)
    requires !m.op.OpExec? && |file| == m.bytes
  {
    var j := WorkersOf(m, file);
    |workers.phases| == |j.ranges| && P.AllExitedZero(j, workers)
  }

  /** The verdict is good exactly when the worker exited 0, and a copy has no body. */
  lemma GoodExactly(o: Oracle, ss: seq<State>, ps: seq<Step>, k: nat, pid: int32, how: WaitStatus, id: nat,
                    job: LiveJob, a: Answer, file: seq<byte>, workers: P.State)
    requires EndsAt(o, ss, ps, k, pid, how, id, job, a)
    requires job.meta.op.OpCopy? && |file| == job.meta.bytes && Observed(job, a, file, workers)
    ensures var v := VerdictOf(job, a);
      && (v.Good? <==> CleanExit(job.meta, file, workers)) && (v.Good? ==> v.body == "")
  {
    hide Valid, RunInv, Run, Inv, NoteReap, VerdictOf, Observed, EndingJob, CleanExit, CleanOracle, CreatedClean;
    StepOf(o, ss, ps, k);
    RunKeepsInv(o, ss, ps, k);
    InvOfRun(ss[k]);
    ReapJudges(o, ss[k], pid, how, id, job, a, file, workers);
  }

  lemma ReapJudges(o: Oracle, s: State, pid: int32, how: WaitStatus, id: nat, job: LiveJob, a: Answer,
                   file: seq<byte>, workers: P.State)
    requires Inv(s) && id in s.live && id !in NoteReap(o, s, pid, how).live && job == EndingJob(s.live[id], pid, how)
    requires job.meta.op.OpCopy? && |file| == job.meta.bytes && Observed(job, a, file, workers)
    ensures var v := VerdictOf(job, a);
      && (v.Good? <==> CleanExit(job.meta, file, workers)) && (v.Good? ==> v.body == "")
  {
    hide Valid, Core, Busy, Draining, NoteReap, VerdictOf, Observed, P.ValidJob, Mark, AnyBad, WorkersOf;
    NotQueuedAtEnd(o, s, pid, how, id);
    ShapeOf(s, id);
    var was := s.live[id];
    MarkKeepsShape(was.meta, was.procs, was.shm, pid, how);
    WorkersShape(job.meta, file);
    ObservedIsGathered(job, a, file, workers);
    VerdictIsRight(job, a, WorkersOf(job.meta, file), workers);
  }

  /** A reap ends running jobs only. */
  lemma NotQueuedAtEnd(o: Oracle, s: State, pid: int32, how: WaitStatus, id: nat)
    requires Inv(s) && id in s.live && id !in NoteReap(o, s, pid, how).live
    ensures !s.live[id].meta.state.Queued?
  {
    hide Valid, Core, Busy, Draining, Emit, RequestStop, Finalize, VerdictOf, Judged, AllReaped, AnyBad, Marked, Mark;
    EmitFrame(s, Waited(pid));
    if pid in s.pidOwner {
      var x := s.pidOwner[pid];
      MarkKeeps(s, x, pid, how);
      var u := Emit(s, Waited(pid));
      var t := u.(live := u.live[x := u.live[x].(procs := Mark(u.live[x].procs, pid, how))]);
      var n, calls := MarkedWrites(o, t, x);
    }
  }

  lemma RejectedIsUnfinished(job: LiveJob, a: Answer)
    requires VerdictOf(job, a).Rejected? && NewlineFree(Judged(job, a))
    ensures C.Unfinished(Judged(job, a))
  {
    hide Valid, VerdictOf, Judged, NewlineFree;
    JudgedState(job, a);
  }

  lemma EndingMeta(job: LiveJob, pid: int32, how: WaitStatus)
    ensures EndingJob(job, pid, how).meta == job.meta
  {
    hide Valid, AnyBad;
  }

  lemma AnswerIsClean(o: Oracle, s: State, job: LiveJob)
    requires CleanOracle(o)
    ensures CleanAnswer(AnswerAtEnd(o, s, job))
  {
    hide CleanAnswer, AnyBad;
  }

  lemma StepWrites(o: Oracle, ss: seq<State>, ps: seq<Step>, k: nat, pid: int32, how: WaitStatus, id: nat)
    returns (n: nat, calls: nat)
    requires Run(o, ss, ps) && k < |ps| && ps[k] == Do(Reap(pid, how)) && id in ss[k].live && id !in ss[k + 1].live
    ensures var job := EndingJob(ss[k].live[id], pid, how);
      var a := AnswerAtEnd(o, ss[k], JobAtEnd(ss[k].live[id], pid, how));
      n <= |ss[k + 1].log| && ss[k + 1].log[n..] == FinalEffects(o, calls, Judged(job, a), a, VerdictOf(job, a))
  {
    hide Valid, RunInv, Run, Inv, NoteReap, Judged, VerdictOf, AnswerAtEnd, EndingJob, JobAtEnd, FinalEffects;
    StepOf(o, ss, ps, k);
    RunKeepsInv(o, ss, ps, k);
    InvOfRun(ss[k]);
    n, calls := ReapWrites(o, ss[k], pid, how, id);
  }
}
