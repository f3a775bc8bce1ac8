/** Over a run every record the controller saves is clean, so loading it gives back what was saved. */
module CleanRuns {
  import opened Base
  import opened MetaCodec
  import opened Procs
  import opened Text
  import opened Validate
  import opened History
  import opened ControllerSpec
  import opened ControllerRuns
  import opened CleanRecords
  import R = Results

  // ---------- what every handler keeps ----------

  predicate TidyEffect(e: Effect) {
    e.Created? || e.Saved? || e.SaveLost? || e.SavedBehind? ==> Tidy(e.meta)
  }

  ghost predicate TidyLog(log: seq<Effect>) {
    forall i :: 0 <= i < |log| ==> TidyEffect(log[i])
  }

  ghost predicate TidyDisk(disk: map<nat, Meta>) {
    forall id :: id in disk ==> Tidy(disk[id])
  }

  ghost predicate TidyLive(live: map<nat, LiveJob>) {
    forall id :: id in live ==> Tidy(live[id].meta)
  }

  ghost predicate TidyState(s: State) {
    TidyLog(s.log) && TidyDisk(s.world.disk) && TidyLive(s.live)
  }

  /** The fields a handler sets, and the others as they were. */
  lemma TidyUpdate(m: Meta, n: Meta)
    requires Tidy(m) && !n.state.UnknownState? && IsLine(n.error) && IsLine(n.procs)
    requires n.startedMs != NO_TIME && n.finishedMs != NO_TIME
    requires n == m.(state := n.state, error := n.error, procs := n.procs, bytes := n.bytes,
                     startedMs := n.startedMs, finishedMs := n.finishedMs)
    ensures Tidy(n)
  {
    hide IsLine, OpText, IoText, StateText;
    StatesAreLines();
  }

  lemma TidyFields(m: Meta)
    requires Tidy(m)
    ensures IsLine(m.error) && IsLine(m.procs) && m.startedMs != NO_TIME && m.finishedMs != NO_TIME
  {
    hide IsLine, OpText, IoText, StateText;
  }

  lemma EmitTidy(s: State, e: Effect)
    requires TidyState(s) && TidyEffect(e)
    ensures TidyState(Emit(s, e))
  {
    hide Valid, Tidy, Rule, Aimed;
  }

  lemma SaveTidy(o: Oracle, s: State, m: Meta)
    requires TidyState(s) && Tidy(m)
    ensures TidyState(Save(o, s, m)) && TidyState(SaveBehind(o, s, m))
  {
    hide Valid, Tidy, Emit;
    var t := s.(calls := s.calls + 1);
    EmitTidy(t, if o(s.calls).wrote then Saved(m) else SaveLost(m));
    EmitTidy(t, if o(s.calls).wrote then SavedBehind(m) else SaveLost(m));
  }

  lemma SameTidy(s: State, t: State)
    requires TidyState(s) && t.log == s.log && t.world == s.world && TidyLive(t.live)
    ensures TidyState(t)
  {
    hide Valid, Tidy;
  }

  // ---------- stopping ----------

  lemma {:induction false} SignalsTidy(s: State, id: nat, ps: seq<ProcRef>, sig: Signo)
    requires TidyState(s)
    ensures TidyState(Signals(s, id, ps, sig))
  {
    hide Valid, TidyState, Emit;
    if ps != [] {
      SignalsTidy(s, id, ps[..|ps| - 1], sig);
      EmitTidy(Signals(s, id, ps[..|ps| - 1], sig), Signalled(id, ps[|ps| - 1].pid, sig));
    }
  }

  lemma SignalJobTidy(s: State, id: nat, sig: Signo)
    requires TidyState(s) && id in s.live
    ensures TidyState(SignalJob(s, id, sig))
  {
    hide Valid, TidyState, Emit;
    EmitTidy(s, StopRound(id, sig, s.clock));
    SignalsTidy(Emit(s, StopRound(id, sig, s.clock)), id, s.live[id].procs, sig);
  }

  lemma RequestStopTidy(o: Oracle, s: State, id: nat, reason: Stop)
    requires TidyState(s) && id in s.live
    ensures TidyState(RequestStop(o, s, id, reason))
  {
    hide Valid, Tidy, SignalJob, TidyLog, TidyDisk;
    if s.live[id].stop == NoStop {
      var now := s.clock + o(s.calls).elapsed;
      var t := s.(calls := s.calls + 1, clock := now,
                  live := s.live[id := s.live[id].(stop := reason, stopSentMs := now)]);
      SignalJobTidy(t, id, SIGTERM);
    }
  }

  // ---------- the end of a job ----------

  lemma SettleTidy(o: Oracle, s: State, m: Meta, a: Answer, v: R.Verdict)
    requires TidyState(s) && Tidy(m) && CleanAnswer(a)
    ensures TidyState(Settle(o, s, m, a, v))
  {
    hide Valid, Save, Emit, TidyState, IsLine;
    StatesAreLines();
    if v.Good? && v.body != "" {
      var t := Save(o, s, m.(state := Persisting));
      SaveTidy(o, s, m.(state := Persisting));
      EmitTidy(t, OutputWritten(m.id, v.body));
      SaveTidy(o, Emit(t, OutputWritten(m.id, v.body)), m);
      SaveTidy(o, t, m.(state := Failed, error := a.text));
    } else {
      SaveTidy(o, s, m);
    }
  }

  lemma FinalizeTidy(o: Oracle, s: State, id: nat)
    requires TidyState(s) && CleanOracle(o)
    ensures TidyState(Finalize(o, s, id))
  {
    hide Valid, Settle, Judged, VerdictOf, Tidy, CleanAnswer;
    if id in s.live && !s.live[id].finished {
      var a, job := o(s.calls), s.live[id];
      var t := s.(calls := s.calls + 1);
      JudgedIsTidy(job, a);
      SettleTidy(o, t, Judged(job, a), a, VerdictOf(job, a));
      SettleLive(o, t, Judged(job, a), a, VerdictOf(job, a));
    }
  }

  lemma SettleLive(o: Oracle, s: State, m: Meta, a: Answer, v: R.Verdict)
    ensures Settle(o, s, m, a, v).live == s.live
  {
    hide Valid, Observe;
  }

  lemma NoteReapTidy(o: Oracle, s: State, pid: int32, how: WaitStatus)
    requires TidyState(s) && CleanOracle(o)
    ensures TidyState(NoteReap(o, s, pid, how))
  {
    hide Valid, Finalize, RequestStop, Mark, AllReaped, AnyBad, Emit, Tidy, TidyLog, TidyDisk, CleanOracle;
    EmitTidy(s, Waited(pid));
    var u := Emit(s, Waited(pid));
    if pid in u.pidOwner && u.pidOwner[pid] in u.live {
      var id := u.pidOwner[pid];
      var ps := Mark(u.live[id].procs, pid, how);
      var t := u.(live := u.live[id := u.live[id].(procs := ps)]);
      RequestStopTidy(o, t, id, StopFailed);
      var v := if AnyBad(ps) && t.live[id].stop == NoStop then RequestStop(o, t, id, StopFailed) else t;
      FinalizeTidy(o, v, id);
    }
  }

  // ---------- launching ----------

  lemma {:induction false} ForksTidy(s: State, id: nat, cs: seq<Child>)
    requires TidyState(s)
    ensures TidyState(Forks(s, id, cs))
  {
    hide Valid, TidyState, Emit;
    if cs != [] {
      ForksTidy(s, id, cs[..|cs| - 1]);
      EmitTidy(Forks(s, id, cs[..|cs| - 1]), Forked(id, cs[|cs| - 1].pid));
    }
  }

  lemma {:induction false} AbortsTidy(s: State, cs: seq<Child>)
    requires TidyState(s)
    ensures TidyState(Aborts(s, cs))
  {
    hide Valid, TidyState, Emit;
    if cs != [] {
      AbortsTidy(s, cs[..|cs| - 1]);
      EmitTidy(Aborts(s, cs[..|cs| - 1]), Aborted(cs[|cs| - 1].pid));
    }
  }

  lemma LoopTidy(o: Oracle, s: State, id: nat, m: GoodMeta, cs: seq<Child>)
    requires TidyState(s) && Tidy(m)
    ensures TidyState(Forks(StartLoop(o, s, id, m, cs), id, cs))
  {
    hide Valid, Save, Emit, Forks, TidyLog, TidyDisk, TidyLive, IsLine, FreshPids;
    StatesAreLines();
    SaveTidy(o, s, m.(state := Starting));
    EmitTidy(Save(o, s, m.(state := Starting)), ForkLoop(id));
    ForksTidy(StartLoop(o, s, id, m, cs), id, cs);
  }

  lemma DropSaveTidy(o: Oracle, s: State, id: nat, m: Meta)
    requires TidyState(s) && Tidy(m)
    ensures TidyState(Drop(Save(o, s, m), id))
  {
    hide Valid, Save, Tidy, TidyLog, TidyDisk;
    SaveTidy(o, s, m);
  }

  lemma SpawnTidy(o: Oracle, s: State, id: nat, m: GoodMeta, a: Answer)
    requires TidyState(s) && id in s.live && Tidy(m) && CleanAnswer(a)
    ensures TidyState(Spawn(o, s, id, m, a))
  {
    var cs, last := SpawnEnds(o, s, id, m, a);
    hide Valid, Save, StartLoop, Forks, Aborts, Started, SlicesOf, Formatted, Spawned, Spawn, Drop, TidyState, IsLine,
         Tidy;
    var u := Forks(StartLoop(o, s, id, m, cs), id, cs);
    LoopTidy(o, s, id, m, cs);
    TidyFields(m);
    FormattedIsLine(Spawned(cs));
    TidyUpdate(m, last);
    if last.state.Failed? {
      AbortsTidy(u, cs);
      DropSaveTidy(o, Aborts(u, cs), id, last);
    } else {
      StartedTidy(u, id, last, cs, a.launch.timerOk);
      SaveTidy(o, Started(u, id, last, cs, a.launch.timerOk), last);
    }
  }

  lemma StartedTidy(s: State, id: nat, m: GoodMeta, cs: seq<Child>, timerOk: bool)
    requires TidyState(s) && id in s.live && 1 <= |SlicesOf(m)| <= 16 && Tidy(m)
    ensures TidyState(Started(s, id, m, cs, timerOk))
  {
    hide Valid, SlicesOf, Own, Spawned, Tidy;
  }

  lemma LaunchTidy(o: Oracle, s: State, id: nat)
    requires TidyState(s) && CleanOracle(o)
    ensures TidyState(Launch(o, s, id))
  {
    hide Valid, Launch, TidyLog, TidyDisk, Tidy;
    if id in s.live {
      var a, m := o(s.calls), s.live[id].meta;
      assert CleanAnswer(a) && Tidy(m);
      var t := s.(calls := s.calls + 1);
      LaunchIs(o, s, id);
      if !m.op.OpExec? && a.launch.inspect.None? {
        UninspectedTidy(o, t, id, m, a);
      } else {
        InspectedTidy(o, t, id, m, if m.op.OpExec? then m else m.(bytes := a.launch.inspect.value), a);
      }
    } else {
      NothingToLaunch(o, s, id);
    }
  }

  lemma NothingToLaunch(o: Oracle, s: State, id: nat)
    requires id !in s.live
    ensures Launch(o, s, id) == s
  {
  }

  /** launch_job up to the fork loop. */
  lemma LaunchIs(o: Oracle, s: State, id: nat)
    requires id in s.live
    ensures var a, m := o(s.calls), s.live[id].meta;
      var t := s.(calls := s.calls + 1);
      if !m.op.OpExec? && a.launch.inspect.None? then
        Launch(o, s, id)
          == Drop(Release(Save(o, t, m.(error := a.text, state := Failed, finishedMs := a.realtime)), id), id)
      else
        var n: Meta := if m.op.OpExec? then m else m.(bytes := a.launch.inspect.value);
        && Valid(n)
        && Launch(o, s, id) ==
           if !a.launch.logOk || (!m.op.OpExec? && !a.launch.mapsOk)
           then Drop(Save(o, t, n.(state := Failed, error := a.text)), id)
           else Spawn(o, t, id, n, a)
  {
    var a, m := o(s.calls), s.live[id].meta;
    if m.op.OpExec? || a.launch.inspect.Some? {
      StaysValid(m, if m.op.OpExec? then m else m.(bytes := a.launch.inspect.value));
    }
    hide Valid, Save, Spawn, Release, Drop;
  }

  lemma UninspectedTidy(o: Oracle, s: State, id: nat, m: Meta, a: Answer)
    requires TidyState(s) && id in s.live && Tidy(m) && CleanAnswer(a)
    ensures var f := m.(error := a.text, state := Failed, finishedMs := a.realtime);
      TidyState(Drop(Release(Save(o, s, f), id), id))
  {
    hide Valid, Save, Tidy, IsLine, TidyState, Release, Drop;
    var f := m.(error := a.text, state := Failed, finishedMs := a.realtime);
    TidyFields(m);
    TidyUpdate(m, f);
    SaveTidy(o, s, f);
    ReleasedTidy(Save(o, s, f), id);
  }

  lemma InspectedTidy(o: Oracle, s: State, id: nat, m: Meta, n: GoodMeta, a: Answer)
    requires TidyState(s) && id in s.live && Tidy(m) && CleanAnswer(a) && n == m.(bytes := n.bytes)
    ensures TidyState(Drop(Save(o, s, n.(state := Failed, error := a.text)), id))
    ensures TidyState(Spawn(o, s, id, n, a))
  {
    hide Valid, Save, Tidy, IsLine, TidyState, Spawn, Drop;
    TidyFields(m);
    TidyUpdate(m, n.(state := Failed, error := a.text));
    DropSaveTidy(o, s, id, n.(state := Failed, error := a.text));
    BytesTidy(m, n);
    SpawnTidy(o, s, id, n, a);
  }

  lemma ReleasedTidy(s: State, id: nat)
    requires TidyState(s) && id in s.live
    ensures TidyState(Drop(Release(s, id), id))
  {
    hide Valid, Tidy;
  }

  /** The size of the input is no text. */
  lemma BytesTidy(m: Meta, n: Meta)
    requires Tidy(m) && n == m.(bytes := n.bytes)
    ensures Tidy(n)
  {
    hide IsLine, OpText, IoText, StateText;
  }

  lemma {:induction false} ScheduleTidy(o: Oracle, s: State)
    requires TidyState(s) && CleanOracle(o)
    ensures TidyState(Schedule(o, s))
    decreases |s.queue|
  {
    hide Valid, Launch, Best, Tidy, TidyLog, TidyDisk, CleanOracle;
    if !(s.shuttingDown || s.slotsUsed >= s.slotsMax) {
      var best := Best(s.live, s.queue);
      if best.Some? {
        var t := s.(queue := RemoveAll(s.queue, best.value));
        LaunchTidy(o, t, best.value);
        ScheduleTidy(o, Launch(o, t, best.value));
      }
    }
  }

  // ---------- control lines, timers, restart ----------

  lemma DiskIsTidy(s: State, id: nat)
    requires TidyState(s) && id in s.world.disk
    ensures Tidy(s.world.disk[id])
  {
    hide Valid, Tidy;
  }

  lemma LiveIsTidy(s: State, id: nat)
    requires TidyState(s) && id in s.live
    ensures Tidy(s.live[id].meta)
  {
    hide Valid, Tidy;
  }

  lemma FixedTexts()
    ensures IsLine("controller is shutting down") && IsLine("cancelled") && IsLine("cancelled before start")
    ensures IsLine(RESTARTED)
  {
    LineAfter("controller restarted ", "while the job was ");
    LineAfter("controller restarted " + "while the job was ", "in progress");
  }

  /** The record of a job that ends without having run. */
  lemma EndTidy(o: Oracle, s: State, m: Meta, end: Meta)
    requires TidyState(s) && Tidy(m) && IsLine(end.error) && end.finishedMs != NO_TIME && !end.state.UnknownState?
    requires end == m.(state := end.state, error := end.error, finishedMs := end.finishedMs)
    ensures TidyState(Save(o, s, end)) && TidyState(SaveBehind(o, s, end))
  {
    hide Valid, Save, SaveBehind, Tidy, IsLine, TidyState;
    TidyFields(m);
    TidyUpdate(m, end);
    SaveTidy(o, s, end);
  }

  lemma EnqueueTidy(o: Oracle, s: State, id: nat)
    requires TidyState(s) && CleanOracle(o)
    ensures TidyState(Enqueue(o, s, id))
  {
    hide Save, SaveBehind, Schedule, TidyState, Terminal, Problem, Tidy, IsLine;
    if id in s.world.disk {
      var a, m := o(s.calls), s.world.disk[id];
      assert CleanAnswer(a);
      var t := s.(calls := s.calls + 1);
      InvalidHasProblem(m);
      StaysValid(m, m.(state := Queued));
      DiskIsTidy(s, id);
      CallTidy(s, t);
      hide Valid, CleanOracle;
      if s.shuttingDown {
        FixedTexts();
        EndTidy(o, t, m, m.(state := Cancelled, error := "controller is shutting down", finishedMs := a.realtime));
      } else if !(id in s.live || Terminal(m.state)) {
        if !Valid(m) {
          ProblemOfTidy(m);
          EndTidy(o, t, m, m.(state := Failed, error := Problem(m).value, finishedMs := a.realtime));
        } else {
          AdmittedTidy(o, s, id, m, m.(state := Queued));
        }
      }
    }
  }

  lemma CallTidy(s: State, t: State)
    requires TidyState(s) && t == s.(calls := t.calls, clock := t.clock)
    ensures TidyState(t)
  {
    hide Valid, Tidy;
  }

  lemma ProblemOfTidy(m: Meta)
    requires Tidy(m) && Problem(m).Some?
    ensures IsLine(Problem(m).value)
  {
    hide Problem, IsLine, OpText, IoText;
    ProblemIsLine(m);
  }

  lemma AdmittedTidy(o: Oracle, s: State, id: nat, m: Meta, n: GoodMeta)
    requires TidyState(s) && Tidy(m) && n == m.(state := Queued) && CleanOracle(o)
    ensures TidyState(Schedule(o, Save(o, s, n).(queue := s.queue + [id], live := s.live[id := NewJob(n)])))
  {
    hide Valid, Save, Schedule, Tidy, IsLine, TidyLog, TidyDisk, CleanOracle;
    TidyFields(m);
    TidyUpdate(m, n);
    SaveTidy(o, s, n);
    ScheduleTidy(o, Save(o, s, n).(queue := s.queue + [id], live := s.live[id := NewJob(n)]));
  }

  lemma OnCancelTidy(o: Oracle, s: State, id: nat)
    requires TidyState(s) && CleanOracle(o)
    ensures TidyState(OnCancel(o, s, id))
  {
    hide Valid, Save, RequestStop, TidyState, Terminal, CleanOracle, Drop;
    var t := s.(calls := s.calls + 1);
    if id !in s.live {
      if id in s.world.disk {
        DiskIsTidy(s, id);
        CancelledTidy(o, s, s.world.disk[id], "cancelled");
      }
    } else if s.live[id].meta.state.Queued? {
      LiveIsTidy(s, id);
      CancelledTidy(o, s, s.live[id].meta, "cancelled before start");
      var m: Meta := s.live[id].meta;
      var c := m.(state := Cancelled, error := "cancelled before start", finishedMs := o(s.calls).realtime);
      DroppedTidy(Save(o, t, c), id, RemoveAll(s.queue, id));
    } else {
      RequestStopTidy(o, s, id, StopCancelled);
    }
  }

  lemma CancelledTidy(o: Oracle, s: State, m: Meta, why: string)
    requires TidyState(s) && CleanOracle(o) && Tidy(m) && why in {"cancelled", "cancelled before start"}
    ensures TidyState(Save(o, s.(calls := s.calls + 1),
                           m.(state := Cancelled, error := why, finishedMs := o(s.calls).realtime)))
  {
    hide Valid, Save, SaveBehind, TidyState, Tidy, IsLine;
    assert CleanAnswer(o(s.calls));
    FixedTexts();
    CallTidy(s, s.(calls := s.calls + 1));
    EndTidy(o, s.(calls := s.calls + 1), m, m.(state := Cancelled, error := why, finishedMs := o(s.calls).realtime));
  }

  lemma DroppedTidy(s: State, id: nat, queue: seq<nat>)
    requires TidyState(s)
    ensures TidyState(Drop(s, id).(queue := queue))
  {
    hide Valid, Tidy;
  }

  lemma {:induction false} CancelAllTidy(o: Oracle, s: State, ids: seq<nat>)
    requires TidyState(s) && CleanOracle(o)
    ensures TidyState(CancelAll(o, s, ids))
  {
    hide Valid, OnCancel, TidyState, CleanOracle;
    if ids != [] {
      CancelAllTidy(o, s, ids[..|ids| - 1]);
      OnCancelTidy(o, CancelAll(o, s, ids[..|ids| - 1]), ids[|ids| - 1]);
    }
  }

  lemma {:induction false} StopAllTidy(o: Oracle, s: State, ids: seq<nat>)
    requires TidyState(s)
    ensures TidyState(StopAll(o, s, ids))
  {
    hide Valid, RequestStop, TidyState;
    if ids != [] {
      var t, id := StopAll(o, s, ids[..|ids| - 1]), ids[|ids| - 1];
      StopAllTidy(o, s, ids[..|ids| - 1]);
      if id in t.live {
        RequestStopTidy(o, t, id, StopShutdown);
      }
    }
  }

  lemma HandleLineTidy(o: Oracle, s: State, line: string, order: seq<nat>)
    requires TidyState(s) && CleanOracle(o)
    ensures TidyState(HandleLine(o, s, line, order))
  {
    hide Valid, Enqueue, OnCancel, CancelAll, StopAll, ParsedU64, TidyLog, TidyDisk, TidyLive, CleanOracle;
    if line == "SHUTDOWN" {
      var u := s.(shuttingDown := true);
      CancelAllTidy(o, u, s.queue);
      StopAllTidy(o, CancelAll(o, u, s.queue), order);
    } else if "SUBMIT " <= line {
      match ParsedU64(line[7..])
      case Some(id) => EnqueueTidy(o, s, id);
      case None =>
    } else if "CANCEL " <= line {
      match ParsedU64(line[7..])
      case Some(id) => OnCancelTidy(o, s, id);
      case None =>
    }
  }

  lemma {:induction false} EscalateTidy(s: State, ids: seq<nat>)
    requires TidyState(s)
    ensures TidyState(Escalate(s, ids))
  {
    hide Valid, SignalJob, TidyLog, TidyDisk, Tidy;
    if ids != [] {
      var t, id := Escalate(s, ids[..|ids| - 1]), ids[|ids| - 1];
      EscalateTidy(s, ids[..|ids| - 1]);
      if id in t.live {
        SignalJobTidy(t, id, SIGKILL);
      }
    }
  }

  lemma {:induction false} KillLeftoversTidy(o: Oracle, s: State, id: nat, ps: seq<ProcRef>)
    requires TidyState(s)
    ensures TidyState(KillLeftovers(o, s, id, ps))
  {
    hide Valid, TidyState, Emit;
    if ps != [] {
      var p := ps[|ps| - 1];
      var t := KillLeftovers(o, s, id, ps[..|ps| - 1]);
      KillLeftoversTidy(o, s, id, ps[..|ps| - 1]);
      CallTidy(t, t.(calls := t.calls + 1));
      EmitTidy(t.(calls := t.calls + 1), LeftoverKilled(id, p.pid, p.start, p.start));
    }
  }

  lemma RecoverOneTidy(o: Oracle, s: State, id: nat)
    requires TidyState(s) && CleanOracle(o)
    ensures TidyState(RecoverOne(o, s, id))
  {
    hide Valid, Save, SaveBehind, KillLeftovers, ParsedProcs, Enqueue, TidyState, Tidy, IsLine;
    if id in s.world.disk {
      var m := s.world.disk[id];
      if m.state in {Running, Starting, Persisting} {
        var t := KillLeftovers(o, s, id, ParsedProcs(m.procs));
        DiskIsTidy(s, id);
        KillLeftoversTidy(o, s, id, ParsedProcs(m.procs));
        CallTidy(t, t.(calls := t.calls + 1));
        assert CleanAnswer(o(t.calls));
        FixedTexts();
        EndTidy(o, t.(calls := t.calls + 1), m,
                m.(state := Failed, error := RESTARTED, finishedMs := o(t.calls).realtime));
      } else if m.state in {Submitted, Queued} {
        EnqueueTidy(o, s, id);
      }
    }
  }

  lemma {:induction false} RecoverAllTidy(o: Oracle, s: State, ids: seq<nat>)
    requires TidyState(s) && CleanOracle(o)
    ensures TidyState(RecoverAll(o, s, ids))
  {
    hide Valid, RecoverOne, TidyState, CleanOracle;
    if ids != [] {
      RecoverAllTidy(o, s, ids[..|ids| - 1]);
      RecoverOneTidy(o, RecoverAll(o, s, ids[..|ids| - 1]), ids[|ids| - 1]);
    }
  }

  // ---------- runs ----------

  lemma HandleTidy(o: Oracle, s: State, e: Event)
    requires TidyState(s) && CleanOracle(o) && (e.NewRecord? ==> Tidy(e.meta))
    ensures TidyState(Handle(o, s, e))
  {
    hide Valid, RecoverAll, HandleLine, NoteReap, Schedule, RequestStop, Escalate, Emit, TidyLog, TidyDisk, TidyLive,
         CleanOracle, Tidy;
    match e
    case NewRecord(m) => EmitTidy(s, Created(m));
    case Boot(ids) => RecoverAllTidy(o, s, ids);
    case Line(line, order) => HandleLineTidy(o, s, line, order);
    case Reap(pid, how) => NoteReapTidy(o, s, pid, how);
    case Reschedule => ScheduleTidy(o, s);
    case Deadline(id) =>
      if id in s.live && s.live[id].deadline {
        RequestStopTidy(o, s, id, StopTimedOut);
      }
    case Tick(order) =>
      var t := s.(calls := s.calls + 1, clock := s.clock + o(s.calls).elapsed);
      EscalateTidy(t, order);
  }

  lemma {:induction false} TidyReplay(log: seq<Effect>)
    requires TidyLog(log)
    ensures TidyDisk(Replay(log).disk)
  {
    hide Tidy, Rule, Aimed;
    if log != [] {
      var front := log[..|log| - 1];
      assert TidyLog(front) by {
        assert forall i :: 0 <= i < |front| ==> front[i] == log[i];
      }
      TidyReplay(front);
      assert TidyEffect(log[|log| - 1]);
    }
  }

  /** A restart finds only what was saved. */
  lemma BootTidy(slots: nat, log: seq<Effect>, clock: nat, calls: nat, newPids: bool)
    requires TidyLog(log)
    ensures TidyState(ControllerSpec.Boot(slots, log, clock, calls, newPids))
  {
    hide Valid, Tidy, Replay;
    TidyReplay(log + [Restarted]);
  }

  /** The records that `forge submit` writes can be read back. */
  ghost predicate CreatedClean(ps: seq<Step>) {
    forall k :: 0 <= k < |ps| && ps[k].event.NewRecord? ==> Clean(ps[k].event.meta)
  }

  lemma {:induction false} RunTidy(o: Oracle, ss: seq<State>, ps: seq<Step>, k: nat)
    requires Run(o, ss, ps) && k < |ss| && CleanOracle(o) && CreatedClean(ps)
    ensures TidyState(ss[k])
  {
    hide Valid, Enabled, Handle, TidyState, CleanOracle, Clean, Tidy, ControllerSpec.Boot;
    if k == 0 {
      var slots: nat :| ss[0] == ControllerSpec.Boot(slots, [], 0, 0, true);
      BootTidy(slots, [], 0, 0, true);
    } else {
      RunTidy(o, ss, ps, k - 1);
      var s, p := ss[k - 1], ps[k - 1];
      assert CanStep(o, s, p) && ss[k] == Next(o, s, p);
      if p.event.NewRecord? {
        TidyIsClean(p.event.meta);
      }
      HandleTidy(o, s, p.event);
      if p.Crash? {
        CutTidy(Handle(o, s, p.event), p.cut);
        var t := Handle(o, s, p.event);
        BootTidy(p.slots, t.log[..p.cut], t.clock, t.calls, t.newPids);
      }
    }
  }

  lemma CutTidy(s: State, cut: nat)
    requires TidyState(s) && cut <= |s.log|
    ensures TidyLog(s.log[..cut])
  {
    hide Valid, Tidy;
  }

  /**
   * Every record on disk in every state of a run, and every record the controller tried to save, is read back as it
   * was written: load_meta of what save_meta left is the identity, across crashes too.
   */
  lemma RecordsReadBack(o: Oracle, ss: seq<State>, ps: seq<Step>, k: nat)
    requires Run(o, ss, ps) && k < |ss| && CleanOracle(o) && CreatedClean(ps)
    ensures forall id :: id in ss[k].world.disk ==>
      TextToMeta(MetaToText(ss[k].world.disk[id])) == Ok(ss[k].world.disk[id])
    ensures forall p :: 0 <= p < |ss[k].log| && (ss[k].log[p].Saved? || ss[k].log[p].SavedBehind?) ==>
      TextToMeta(MetaToText(ss[k].log[p].meta)) == Ok(ss[k].log[p].meta)
  {
    hide Valid, Run, CleanOracle, CreatedClean, Clean, Tidy, TextToMeta, MetaToText;
    RunTidy(o, ss, ps, k);
    forall id | id in ss[k].world.disk
      ensures TextToMeta(MetaToText(ss[k].world.disk[id])) == Ok(ss[k].world.disk[id])
    {
      TidyReadsBack(ss[k].world.disk[id]);
    }
    forall p | 0 <= p < |ss[k].log| && (ss[k].log[p].Saved? || ss[k].log[p].SavedBehind?)
      ensures TextToMeta(MetaToText(ss[k].log[p].meta)) == Ok(ss[k].log[p].meta)
    {
      assert TidyEffect(ss[k].log[p]);
      TidyReadsBack(ss[k].log[p].meta);
    }
  }

  lemma TidyReadsBack(m: Meta)
    requires Tidy(m)
    ensures TextToMeta(MetaToText(m)) == Ok(m)
  {
    hide Tidy, Clean, TextToMeta, MetaToText;
    TidyIsClean(m);
    RoundTrip(m);
  }
}
