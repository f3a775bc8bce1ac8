/** Two short runs that show what the conditions of the results on records are for. */
module Counterexamples {
  import opened Base
  import opened MetaCodec
  import opened Procs
  import opened Text
  import opened Validate
  import opened Worker
  import opened History
  import opened ControllerSpec
  import opened ControllerLog
  import opened ControllerRuns
  import opened Records
  import P = Protocol
  import R = Results

  /** The record of an exec job, as `forge submit` writes it. */
  const JOB: GoodMeta := BLANK.(id := 1, op := OpExec, execPath := "/")

  const CHILD: Child := Child(100, 5, true)

  /** Every fork returns pid 100; saves work, or none does. */
  function Steadily(saves: bool): Oracle {
    (n: nat) => Answer(saves, 0, 0, "", Launching(None, true, true, true, [CHILD]),
                       0, seq(P.MAX_WORKERS, i => EMPTY_SLOT), None, true, None)
  }

  /** One slot, and nothing in memory. */
  ghost predicate Idle(s: State) {
    && s.live == map[] && s.queue == [] && s.pidOwner == map[] && !s.shuttingDown
    && s.slotsMax == 1 && s.slotsUsed == 0
  }

  /** The job runs as pid 100. */
  ghost predicate RunsAlone(s: State) {
    && s.live.Keys == {1} && s.live[1].meta.state.Running? && s.live[1].meta.op.OpExec? && s.live[1].meta.id == 1
    && s.live[1].procs == Spawned([CHILD]) && !s.live[1].finished && s.live[1].usesSlot
    && s.queue == [] && s.pidOwner == map[100 := 1]
    && s.slotsMax == 1 && s.slotsUsed == 1 && s.booted
  }

  /** The save that fails leaves the old record, the save that works replaces it. */
  lemma SaveDoes(saves: bool, s: State, m: Meta)
    ensures var t := Save(Steadily(saves), s, m);
      && t.world.disk == (if saves then s.world.disk[m.id := m] else s.world.disk)
      && t.world.lost == (if saves then s.world.lost else s.world.lost + {m.id})
      && t.log == s.log + [if saves then Saved(m) else SaveLost(m)]
  {
    hide Valid, Rule, Aimed;
  }

  lemma OneSlice(m: GoodMeta)
    requires m.op.OpExec?
    ensures |SlicesOf(m)| == 1
  {
    ValidFitsTheRegion(m);
  }

  /** The job after launch_job has forked its process. */
  function Launched1(m: GoodMeta): GoodMeta {
    StaysValid(m, m.(startedMs := 0, state := Running, procs := Formatted(Spawned([CHILD]))));
    m.(startedMs := 0, state := Running, procs := Formatted(Spawned([CHILD])))
  }

  lemma StartLoopDoes(saves: bool, s: State, id: nat, m: GoodMeta)
    requires m.id == id
    ensures var t, n := StartLoop(Steadily(saves), s, id, m, [CHILD]), m.(state := Starting);
      && t.world.disk == (if saves then s.world.disk[id := n] else s.world.disk)
      && t.world.lost == (if saves then s.world.lost else s.world.lost + {id})
      && t.log == s.log + [if saves then Saved(n) else SaveLost(n), ForkLoop(id)]
  {
    hide Valid, Rule, Aimed, Save, FreshPids;
    SaveDoes(saves, s, m.(state := Starting));
  }

  lemma ForksDoes(s: State, id: nat)
    ensures var t := Forks(s, id, [CHILD]);
      t.world.disk == s.world.disk && t.world.lost == s.world.lost && t.log == s.log + [Forked(id, 100)]
  {
    hide Valid, Rule, Aimed;
    assert [CHILD][..0] == [];
  }

  lemma StartedDoes(s: State, id: nat, m: GoodMeta, timerOk: bool)
    requires id in s.live && m.op.OpExec? && 1 <= |SlicesOf(m)| <= P.MAX_WORKERS
    ensures var t := Started(s, id, m, [CHILD], timerOk);
      && t == s.(live := t.live, pidOwner := s.pidOwner[100 := id], slotsUsed := s.slotsUsed + 1)
      && t.live.Keys == s.live.Keys
      && t.live[id] == s.live[id].(meta := m, procs := Spawned([CHILD]), shm := None, usesSlot := true,
                                   deadline := t.live[id].deadline)
  {
    hide Valid, SlicesOf;
    assert Pids(Spawned([CHILD])) == {100} by {
      assert Spawned([CHILD])[0].pid == 100;
    }
    assert Own(s.pidOwner, Spawned([CHILD]), id) == s.pidOwner[100 := id];
  }

  lemma SpawnIs(saves: bool, s: State, id: nat, m: GoodMeta)
    requires id in s.live && m.op.OpExec? && m.id == id
    ensures Valid(Launched1(m)) && |SlicesOf(Launched1(m))| == 1
    ensures var o := Steadily(saves);
      Spawn(o, s, id, m, o(0)) ==
      Save(o, Started(Forks(StartLoop(o, s, id, m, [CHILD]), id, [CHILD]), id, Launched1(m), [CHILD], true),
        Launched1(m))
  {
    OneSlice(m);
    StaysValid(m, Launched1(m));
    SameSlices(m, Launched1(m));
    hide Valid, Save, StartLoop, Forks, Started, SlicesOf, Formatted;
    assert [CHILD][..1] == [CHILD];
  }

  lemma SpawnRuns(saves: bool, s: State, id: nat, m: GoodMeta)
    requires id in s.live && m.op.OpExec? && m.id == id
    ensures var o := Steadily(saves); var t := Spawn(o, s, id, m, o(0));
      && t == s.(live := t.live, pidOwner := s.pidOwner[100 := id], slotsUsed := s.slotsUsed + 1,
                 calls := t.calls, log := t.log, world := t.world, newPids := t.newPids)
      && t.live.Keys == s.live.Keys
      && t.live[id] == s.live[id].(meta := Launched1(m), procs := Spawned([CHILD]), shm := None, usesSlot := true,
                                   deadline := t.live[id].deadline)
  {
    SpawnIs(saves, s, id, m);
    hide Valid, Save, StartLoop, Forks, Started, SlicesOf, Formatted, Spawn, Steadily;
    var u := Forks(StartLoop(Steadily(saves), s, id, m, [CHILD]), id, [CHILD]);
    StartedDoes(u, id, Launched1(m), true);
  }

  lemma StartedIsSilent(s: State, id: nat, m: GoodMeta, timerOk: bool)
    requires id in s.live && 1 <= |SlicesOf(m)| <= P.MAX_WORKERS
    ensures var t := Started(s, id, m, [CHILD], timerOk); t.world == s.world && t.log == s.log
  {
    hide Valid, SlicesOf, Own;
  }

  lemma SpawnWrites(saves: bool, s: State, id: nat, m: GoodMeta)
    requires id in s.live && m.op.OpExec? && m.id == id
    ensures var o := Steadily(saves); var t := Spawn(o, s, id, m, o(0));
      && (if saves then id in t.world.disk && t.world.disk[id] == Launched1(m) else t.world.disk == s.world.disk)
      && (saves ==> t.world.lost == s.world.lost)
      && |t.log| > |s.log| + 1 && t.log[|s.log| + 1] == ForkLoop(id)
  {
    SpawnIs(saves, s, id, m);
    hide Valid, Save, StartLoop, Forks, Started, SlicesOf, Formatted, Spawn, Steadily;
    StartLoopDoes(saves, s, id, m);
    var t := StartLoop(Steadily(saves), s, id, m, [CHILD]);
    ForksDoes(t, id);
    var u := Forks(t, id, [CHILD]);
    StartedIsSilent(u, id, Launched1(m), true);
    SaveDoes(saves, Started(u, id, Launched1(m), [CHILD], true), Launched1(m));
  }

  /** The job as SUBMIT admits it. */
  function Queued1(): GoodMeta {
    StaysValid(JOB, JOB.(state := Queued));
    JOB.(state := Queued)
  }

  lemma ScheduleRuns(saves: bool, s: State)
    requires s.live == map[1 := NewJob(Queued1())] && s.queue == [1] && s.pidOwner == map[] && !s.shuttingDown
    requires s.slotsMax == 1 && s.slotsUsed == 0
    ensures var t := Schedule(Steadily(saves), s);
      && RunsAlone(t.(booted := true)) && t.booted == s.booted && t.shuttingDown == s.shuttingDown
      && t.live[1].meta == Launched1(Queued1())
      && (if saves then 1 in t.world.disk && t.world.disk[1] == Launched1(Queued1()) else t.world.disk == s.world.disk)
      && (saves ==> t.world.lost == s.world.lost)
      && |t.log| > |s.log| + 1 && t.log[|s.log| + 1] == ForkLoop(1)
  {
    var o, m := Steadily(saves), Queued1();
    hide Valid, Spawn, Formatted;
    assert [1][..0] == [];
    assert Best(s.live, [1]) == Some(1);
    assert RemoveAll([1], 1) == [];
    var t := s.(queue := [], calls := s.calls + 1);
    SpawnRuns(saves, t, 1, m);
    SpawnWrites(saves, t, 1, m);
    assert Launch(o, s.(queue := []), 1) == Spawn(o, t, 1, m, o(0));
  }

  lemma EnqueueRuns(saves: bool, s: State)
    requires Idle(s) && 1 in s.world.disk && s.world.disk[1] == JOB
    ensures var t := Enqueue(Steadily(saves), s, 1);
      && RunsAlone(t.(booted := true)) && t.booted == s.booted && t.shuttingDown == s.shuttingDown
      && t.live[1].meta == Launched1(Queued1())
      && (if saves then 1 in t.world.disk && t.world.disk[1] == Launched1(Queued1()) else t.world.disk == s.world.disk)
      && (saves ==> t.world.lost == s.world.lost)
      && exists p :: |s.log| <= p < |t.log| && t.log[p] == ForkLoop(1)
  {
    hide Valid, Problem, Save, Schedule, Launched1, RunsAlone;
    var o := Steadily(saves);
    SaveDoes(saves, s, Queued1());
    var u := Save(o, s, Queued1());
    var v := u.(queue := s.queue + [1], live := s.live[1 := NewJob(Queued1())]);
    ScheduleRuns(saves, v);
    assert Enqueue(o, s, 1) == Schedule(o, v);
    assert Schedule(o, v).log[|v.log| + 1] == ForkLoop(1);
  }

  /** The process exits 0, so the job is completed; the stop reason does not matter. */
  lemma ReapEnds(saves: bool, s: State)
    requires RunsAlone(s)
    ensures var t := NoteReap(Steadily(saves), s, 100, Exited(0));
      && t == s.(live := map[], queue := [], pidOwner := map[], slotsUsed := 0,
                 calls := t.calls, log := t.log, world := t.world)
      && (if saves then t.world.lost == s.world.lost && 1 in t.world.disk && t.world.disk[1].state.Completed?
          else t.world.disk == s.world.disk)
  {
    hide Valid, Observe, Settle, Judged, VerdictOf, Mark, RequestStop;
    var o := Steadily(saves);
    var ps := Mark(s.live[1].procs, 100, Exited(0));
    assert ps == [s.live[1].procs[0].(reaped := true, how := Exited(0))];
    var u := Emit(s, Waited(100));
    var t := u.(live := u.live[1 := u.live[1].(procs := ps)]);
    assert NoteReap(o, s, 100, Exited(0)) == Finalize(o, t, 1);
    FinalizeEnds(saves, t);
    WaitedIsSilent(s, 100);
  }

  lemma WaitedIsSilent(s: State, pid: int32)
    ensures var u := Emit(s, Waited(pid)); u.world.disk == s.world.disk && u.world.lost == s.world.lost
  {
    hide Valid, Rule, Aimed;
  }

  lemma FinalizeEnds(saves: bool, s: State)
    requires s.live.Keys == {1} && s.live[1].meta.op.OpExec? && s.live[1].meta.id == 1 && !s.live[1].finished
    requires s.live[1].usesSlot && s.queue == [] && s.pidOwner == map[100 := 1] && s.slotsUsed == 1
    requires s.live[1].procs == [ProcRef(100, 5, true, true, Exited(0))]
    ensures var t := Finalize(Steadily(saves), s, 1);
      && t == s.(live := map[], queue := [], pidOwner := map[], slotsUsed := 0,
                 calls := t.calls, log := t.log, world := t.world)
      && (if saves then t.world.lost == s.world.lost && 1 in t.world.disk && t.world.disk[1].state.Completed?
          else t.world.disk == s.world.disk)
  {
    hide Valid, Save, ExitsText, StateText, Observe;
    var o := Steadily(saves);
    var m := Judged(s.live[1], o(0));
    assert VerdictOf(s.live[1], o(0)) == R.Good("");
    assert m.state.Completed? && m.id == 1;
    SaveDoes(saves, s.(calls := s.calls + 1), m);
    assert Pids(s.live[1].procs) == {100} by {
      assert s.live[1].procs[0].pid == 100;
    }
    assert s.pidOwner - {100} == map[];
    assert s.live - {1} == map[];
  }

  lemma ShutdownStops(saves: bool, s: State)
    requires RunsAlone(s)
    ensures var t := HandleLine(Steadily(saves), s, "SHUTDOWN", [1]);
      && RunsAlone(t) && t.shuttingDown && t.live[1].meta == s.live[1].meta
      && t.world.disk == s.world.disk && t.world.lost == s.world.lost
  {
    hide Valid, RequestStop;
    var o, u := Steadily(saves), s.(shuttingDown := true);
    assert [1][..0] == [];
    assert CancelAll(o, u, []) == u;
    assert StopAll(o, u, [1]) == RequestStop(o, u, 1, StopShutdown);
    StopKeepsRunning(o, u);
  }

  lemma StopKeepsRunning(o: Oracle, s: State)
    requires RunsAlone(s)
    ensures var t := RequestStop(o, s, 1, StopShutdown);
      && RunsAlone(t) && t.shuttingDown == s.shuttingDown && t.live[1].meta == s.live[1].meta
      && t.world.disk == s.world.disk && t.world.lost == s.world.lost
  {
    hide Valid, Observe, Signals;
    if s.live[1].stop == NoStop {
      var job := s.live[1].(stop := StopShutdown, stopSentMs := s.clock + o(s.calls).elapsed);
      var u := s.(calls := s.calls + 1, clock := s.clock + o(s.calls).elapsed, live := s.live[1 := job]);
      StopRoundIsSilent(u, 1, SIGTERM);
    }
  }

  lemma StopRoundIsSilent(s: State, id: nat, sig: Signo)
    requires id in s.live && s.live[id].procs == Spawned([CHILD])
    ensures var t := SignalJob(s, id, sig); t.world.disk == s.world.disk && t.world.lost == s.world.lost
  {
    hide Valid, Rule, Aimed;
    var ps := s.live[id].procs;
    var u := Emit(s, StopRound(id, sig, s.clock));
    assert ps[..0] == [];
    assert Signals(u, id, ps[..0], sig) == u;
    assert Signals(u, id, ps, sig) == Emit(u, Signalled(id, ps[0].pid, sig));
  }

  lemma LateSubmitRuns(s: State)
    requires RunsAlone(s) && s.shuttingDown && 1 in s.world.disk && s.world.disk[1] == s.live[1].meta
    ensures var t := HandleLine(Steadily(true), s, "SUBMIT 1", [1]);
      && RunsAlone(t) && 1 in t.world.behind && t.world.lost == s.world.lost
      && 1 in t.world.disk && t.world.disk[1].state.Cancelled?
  {
    hide Valid, Schedule, Problem, Rule, Aimed;
    SubmitOne(Steadily(true), s, [1]);
    LateSubmitOverwrites(Steadily(true), s, 1);
  }

  lemma SubmitOne(o: Oracle, s: State, order: seq<nat>)
    ensures HandleLine(o, s, "SUBMIT 1", order) == Enqueue(o, s, 1)
  {
    hide Valid, Enqueue, Shutdown;
    var line := "SUBMIT 1";
    assert line[7..] == "1";
    assert ParsedU64("1") == Some(1) by {
      assert "1"[..0] == "";
    }
    assert line[..7] == "SUBMIT ";
    assert SubmitId(line) == Some(1);
    SubmitIsEnqueue(o, s, line, order);
  }

  // ---------- the runs ----------

  function Steps(es: seq<Event>): (ps: seq<Step>)
    ensures |ps| == |es| && forall k :: 0 <= k < |es| ==> ps[k] == Do(es[k])
  {
    seq(|es|, k requires 0 <= k < |es| => Do(es[k]))
  }

  /** States that follow one another by events that can happen are a run. */
  lemma EventsMakeARun(o: Oracle, ss: seq<State>, es: seq<Event>)
    requires |ss| == |es| + 1 && ss[0] == ControllerSpec.Boot(1, [], 0, 0, true)
    requires forall k :: 0 <= k < |es| ==> Enabled(ss[k], es[k]) && ss[k + 1] == Handle(o, ss[k], es[k])
    ensures Run(o, ss, Steps(es))
  {
    hide Valid, Handle, Enabled, ControllerSpec.Boot;
  }

  lemma FirstWorld(log: seq<Effect>)
    requires log == [Restarted]
    ensures Replay(log) == Observe(FIRST, Restarted)
  {
    hide Observe;
    assert log[..0] == [];
  }

  lemma Starts(saves: bool, s: State)
    requires s == ControllerSpec.Boot(1, [], 0, 0, true)
    ensures var o := Steadily(saves);
      var t := Handle(o, s, NewRecord(JOB));
      var u := Handle(o, t, Event.Boot([1]));
      && Enabled(s, NewRecord(JOB)) && Enabled(t, Event.Boot([1]))
      && RunsAlone(u) && !u.shuttingDown && (saves ==> u.world.lost == {})
      && (if saves then 1 in u.world.disk && u.world.disk[1] == u.live[1].meta
          else 1 in u.world.disk && u.world.disk[1] == JOB)
      && exists p :: 0 <= p < |u.log| && u.log[p] == ForkLoop(1)
  {
    hide Valid, Enqueue, Observe, RunsAlone, ControllerSpec.Boot, Enabled, Emit;
    var o := Steadily(saves);
    var t := Handle(o, s, NewRecord(JOB));
    RecordIsWritten(s);
    EnqueueRuns(saves, t);
    assert [1][..0] == [];
    assert RecoverAll(o, t, [1]) == RecoverOne(o, t, 1);
  }

  lemma RecordIsWritten(s: State)
    requires s == ControllerSpec.Boot(1, [], 0, 0, true)
    ensures var t := Emit(s, Created(JOB));
      && Enabled(s, NewRecord(JOB)) && Enabled(t, Event.Boot([1]))
      && Idle(t) && 1 in t.world.disk && t.world.disk[1] == JOB && t.world.lost == {}
  {
    hide Valid, Rule, Aimed, Replay;
    FirstWorld(s.log);
  }

  /** A job is submitted and runs; SHUTDOWN; the same job is submitted again; its process exits 0. */
  const LATE: seq<Event> := [NewRecord(JOB), Event.Boot([1]), Line("SHUTDOWN", [1]), Line("SUBMIT 1", [1]),
                             Reap(100, Exited(0))]

  lemma EnabledAlone(s: State, e: Event)
    requires RunsAlone(s) && (e.Reap? || e in {Line("SHUTDOWN", [1]), Line("SUBMIT 1", [1])})
    ensures Enabled(s, e)
  {
    hide Valid;
  }

  /** A run in which no save is lost and a record goes from cancelled to completed. */
  lemma RecordsDoNotAlwaysRise() returns (ss: seq<State>, q: nat)
    ensures Run(Steadily(true), ss, Steps(LATE)) && |ss| == 6 && ss[5].world.lost == {}
    ensures 1 in ss[4].world.disk && ss[4].world.disk[1].state.Cancelled?
    ensures 1 in ss[5].world.disk && ss[5].world.disk[1].state.Completed?
    ensures q < |ss[5].log| && EndsTwice(ss[5].log, q, 1)
  {
    hide Valid, EndsTwice, Run;
    ss := LateRun();
    q := OverwrittenJobEndsTwice(Steadily(true), ss, Steps(LATE), 4, 100, Exited(0), 1);
  }

  lemma LateRun() returns (ss: seq<State>)
    ensures Run(Steadily(true), ss, Steps(LATE)) && |ss| == 6 && ss[5].world.lost == {}
    ensures 1 in ss[4].world.disk && ss[4].world.disk[1].state.Cancelled?
    ensures 1 in ss[5].world.disk && ss[5].world.disk[1].state.Completed?
    ensures 1 in ss[4].live && 1 in ss[4].world.behind && 1 !in ss[5].live
  {
    hide Valid, HandleLine, NoteReap, Recover, Emit, Enabled, RunsAlone, Run, ControllerSpec.Boot;
    var o := Steadily(true);
    var s0 := ControllerSpec.Boot(1, [], 0, 0, true);
    Starts(true, s0);
    var s1 := Handle(o, s0, NewRecord(JOB));
    var s2 := Handle(o, s1, Event.Boot([1]));
    var s3, s4, s5 := LateEvents(s2);
    ss := [s0, s1, s2, s3, s4, s5];
    EventsMakeARun(o, ss, LATE);
  }

  lemma LateEvents(s: State) returns (s3: State, s4: State, s5: State)
    requires RunsAlone(s) && s.world.lost == {} && 1 in s.world.disk && s.world.disk[1] == s.live[1].meta
    ensures Enabled(s, LATE[2]) && s3 == Handle(Steadily(true), s, LATE[2])
    ensures Enabled(s3, LATE[3]) && s4 == Handle(Steadily(true), s3, LATE[3])
    ensures Enabled(s4, LATE[4]) && s5 == Handle(Steadily(true), s4, LATE[4])
    ensures s5.world.lost == {} && 1 in s4.live && 1 in s4.world.behind && 1 !in s5.live
    ensures 1 in s4.world.disk && s4.world.disk[1].state.Cancelled?
    ensures 1 in s5.world.disk && s5.world.disk[1].state.Completed?
  {
    hide Valid, HandleLine, NoteReap, Enabled, RunsAlone;
    var o := Steadily(true);
    EnabledAlone(s, LATE[2]);
    ShutdownStops(true, s);
    s3 := HandleLine(o, s, "SHUTDOWN", [1]);
    EnabledAlone(s3, LATE[3]);
    LateSubmitRuns(s3);
    s4 := HandleLine(o, s3, "SUBMIT 1", [1]);
    EnabledAlone(s4, LATE[4]);
    AloneIsLive(s4);
    ReapEnds(true, s4);
    s5 := NoteReap(o, s4, 100, Exited(0));
  }

  lemma AloneIsLive(s: State)
    requires RunsAlone(s)
    ensures 1 in s.live
  {
    hide Valid;
  }

  lemma IdleAgain(s: State, t: State)
    requires RunsAlone(s) && !s.shuttingDown
    requires t == s.(live := map[], queue := [], pidOwner := map[], slotsUsed := 0,
                     calls := t.calls, log := t.log, world := t.world)
    ensures Idle(t) && Enabled(t, Line("SUBMIT 1", []))
  {
    hide Valid;
  }

  /** A job is submitted, runs and ends; it is submitted again. */
  const AGAIN: seq<Event> := [NewRecord(JOB), Event.Boot([1]), Reap(100, Exited(0)), Line("SUBMIT 1", [])]

  /** A run in which every save is lost and a job goes through the fork loop twice. */
  lemma LostSavesLaunchTwice() returns (ss: seq<State>, p: nat, q: nat)
    ensures Run(Steadily(false), ss, Steps(AGAIN)) && |ss| == 5 && 1 in ss[4].world.lost
    ensures p < q < |ss[4].log| && ss[4].log[p] == ss[4].log[q] == ForkLoop(1)
  {
    hide Valid, HandleLine, NoteReap, Recover, Emit, Enabled, RunsAlone, Run, ControllerSpec.Boot, Enqueue;
    var o := Steadily(false);
    var s0 := ControllerSpec.Boot(1, [], 0, 0, true);
    Starts(false, s0);
    var s1 := Handle(o, s0, NewRecord(JOB));
    var s2 := Handle(o, s1, Event.Boot([1]));
    EnabledAlone(s2, AGAIN[2]);
    ReapEnds(false, s2);
    var s3 := NoteReap(o, s2, 100, Exited(0));
    IdleAgain(s2, s3);
    EnqueueRuns(false, s3);
    SubmitOne(o, s3, []);
    var s4 := HandleLine(o, s3, "SUBMIT 1", []);
    ss := [s0, s1, s2, s3, s4];
    EventsMakeARun(o, ss, AGAIN);
    p :| 0 <= p < |s2.log| && s2.log[p] == ForkLoop(1);
    q :| |s3.log| <= q < |s4.log| && s4.log[q] == ForkLoop(1);
    RunLogGrows(o, ss, Steps(AGAIN), 2, 3);
    RunLogGrows(o, ss, Steps(AGAIN), 2, 4);
    if 1 !in s4.world.lost {
      LaunchedAtMostOnce(o, ss, Steps(AGAIN), 4, p, q);
    }
  }
}
