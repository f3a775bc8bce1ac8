/** What schedule, SUBMIT and finalize put on the log has no stop round and kills no leftover. */
module CalmLogs {
  import opened Base
  import opened MetaCodec
  import opened Procs
  import opened Validate
  import opened History
  import opened ControllerSpec
  import opened CleanRuns
  import R = Results

  /** `log` goes on from `base` without a round of stop signals and without killing a leftover. */
  ghost predicate Calm(base: seq<Effect>, log: seq<Effect>) {
    && base <= log
    && forall q :: |base| <= q < |log| ==> !log[q].StopRound? && !log[q].LeftoverKilled?
  }

  lemma CalmSelf(log: seq<Effect>)
    ensures Calm(log, log)
  {
  }

  lemma EmitCalm(base: seq<Effect>, s: State, e: Effect)
    requires Calm(base, s.log) && !e.StopRound? && !e.LeftoverKilled?
    ensures Calm(base, Emit(s, e).log)
  {
    hide Valid, Observe;
    assert s.log <= s.log + [e];
  }

  lemma SaveCalm(o: Oracle, base: seq<Effect>, s: State, m: Meta)
    requires Calm(base, s.log)
    ensures Calm(base, Save(o, s, m).log) && Calm(base, SaveBehind(o, s, m).log)
  {
    hide Valid, Emit, Calm;
    var t := s.(calls := s.calls + 1);
    EmitCalm(base, t, SaveLost(m));
    EmitCalm(base, t, Saved(m));
    EmitCalm(base, t, SavedBehind(m));
  }

  lemma {:induction false} ForksCalm(base: seq<Effect>, s: State, id: nat, cs: seq<Child>)
    requires Calm(base, s.log)
    ensures Calm(base, Forks(s, id, cs).log)
  {
    hide Valid, Emit, Calm;
    if cs != [] {
      ForksCalm(base, s, id, cs[..|cs| - 1]);
      EmitCalm(base, Forks(s, id, cs[..|cs| - 1]), Forked(id, cs[|cs| - 1].pid));
    }
  }

  lemma {:induction false} AbortsCalm(base: seq<Effect>, s: State, cs: seq<Child>)
    requires Calm(base, s.log)
    ensures Calm(base, Aborts(s, cs).log)
  {
    hide Valid, Emit, Calm;
    if cs != [] {
      AbortsCalm(base, s, cs[..|cs| - 1]);
      EmitCalm(base, Aborts(s, cs[..|cs| - 1]), Aborted(cs[|cs| - 1].pid));
    }
  }

  lemma LoopCalm(o: Oracle, base: seq<Effect>, s: State, id: nat, m: GoodMeta, cs: seq<Child>)
    requires Calm(base, s.log)
    ensures Calm(base, Forks(StartLoop(o, s, id, m, cs), id, cs).log)
  {
    hide Valid, Emit, Save, Calm, FreshPids, Forks;
    var t := Save(o, s, m.(state := Starting));
    SaveCalm(o, base, s, m.(state := Starting));
    EmitCalm(base, t, ForkLoop(id));
    ForksCalm(base, StartLoop(o, s, id, m, cs), id, cs);
  }

  lemma SpawnCalm(o: Oracle, base: seq<Effect>, s: State, id: nat, m: GoodMeta, a: Answer)
    requires id in s.live && Calm(base, s.log)
    ensures Calm(base, Spawn(o, s, id, m, a).log)
  {
    var cs, last := SpawnEnds(o, s, id, m, a);
    hide Valid, Save, Calm, StartLoop, Forks, Aborts, Started, SlicesOf, Formatted, Spawned, Spawn;
    var u := Forks(StartLoop(o, s, id, m, cs), id, cs);
    LoopCalm(o, base, s, id, m, cs);
    if last.state.Failed? {
      AbortsCalm(base, u, cs);
      SaveCalm(o, base, Aborts(u, cs), last);
    } else {
      StartedLog(u, id, last, cs, a.launch.timerOk);
      SaveCalm(o, base, Started(u, id, last, cs, a.launch.timerOk), last);
    }
  }

  lemma StartedLog(s: State, id: nat, m: GoodMeta, cs: seq<Child>, timerOk: bool)
    requires id in s.live && 1 <= |SlicesOf(m)| <= 16
    ensures Started(s, id, m, cs, timerOk).log == s.log
  {
    hide Valid, SlicesOf, Own, Spawned;
  }

  lemma LaunchCalm(o: Oracle, base: seq<Effect>, s: State, id: nat)
    requires Calm(base, s.log)
    ensures Calm(base, Launch(o, s, id).log)
  {
    if id in s.live {
      LaunchIs(o, s, id);
      hide Valid, Save, Calm, Spawn, Launch;
      var a, m := o(s.calls), s.live[id].meta;
      var t := s.(calls := s.calls + 1);
      SaveCalm(o, base, t, m.(error := a.text, state := Failed, finishedMs := a.realtime));
      if m.op.OpExec? || a.launch.inspect.Some? {
        var m: Meta := if m.op.OpExec? then m else m.(bytes := a.launch.inspect.value);
        SaveCalm(o, base, t, m.(state := Failed, error := a.text));
        SpawnCalm(o, base, t, id, m, a);
      }
    }
  }

  lemma {:induction false} ScheduleCalm(o: Oracle, base: seq<Effect>, s: State)
    requires Calm(base, s.log)
    ensures Calm(base, Schedule(o, s).log)
    decreases |s.queue|
  {
    hide Valid, Launch, Best, Calm;
    if !(s.shuttingDown || s.slotsUsed >= s.slotsMax) {
      var best := Best(s.live, s.queue);
      if best.Some? {
        var t := s.(queue := RemoveAll(s.queue, best.value));
        LaunchCalm(o, base, t, best.value);
        ScheduleCalm(o, base, Launch(o, t, best.value));
      }
    }
  }

  lemma EnqueueCalm(o: Oracle, base: seq<Effect>, s: State, id: nat)
    requires Calm(base, s.log)
    ensures Calm(base, Enqueue(o, s, id).log)
  {
    hide Calm, Save, SaveBehind, Schedule, Problem, Terminal;
    if id in s.world.disk {
      var m, a := s.world.disk[id], o(s.calls);
      InvalidHasProblem(m);
      StaysValid(m, m.(state := Queued));
      hide Valid;
      var t := s.(calls := s.calls + 1);
      SaveCalm(o, base, t, m.(state := Cancelled, error := "controller is shutting down",
                                   finishedMs := a.realtime));
      if Valid(m) {
        AdmissionCalm(o, base, s, id, m.(state := Queued));
      } else {
        SaveCalm(o, base, t, m.(state := Failed, error := Problem(m).value, finishedMs := a.realtime));
      }
    }
  }

  lemma AdmissionCalm(o: Oracle, base: seq<Effect>, s: State, id: nat, m: GoodMeta)
    requires Calm(base, s.log)
    ensures var u := Save(o, s, m);
      Calm(base, Schedule(o, u.(queue := s.queue + [id], live := s.live[id := NewJob(m)])).log)
  {
    hide Valid, Calm, Save, Schedule;
    var u := Save(o, s, m);
    SaveCalm(o, base, s, m);
    ScheduleCalm(o, base, u.(queue := s.queue + [id], live := s.live[id := NewJob(m)]));
  }

  lemma SettleCalm(o: Oracle, base: seq<Effect>, s: State, m: Meta, a: Answer, v: R.Verdict)
    requires Calm(base, s.log)
    ensures Calm(base, Settle(o, s, m, a, v).log)
  {
    hide Valid, Save, Emit, Calm;
    if v.Good? && v.body != "" {
      var t := Save(o, s, m.(state := Persisting));
      SaveCalm(o, base, s, m.(state := Persisting));
      EmitCalm(base, t, OutputWritten(m.id, v.body));
      SaveCalm(o, base, Emit(t, OutputWritten(m.id, v.body)), m);
      SaveCalm(o, base, t, m.(state := Failed, error := a.text));
    } else {
      SaveCalm(o, base, s, m);
    }
  }

  lemma FinalizeCalm(o: Oracle, base: seq<Effect>, s: State, id: nat)
    requires Calm(base, s.log)
    ensures Calm(base, Finalize(o, s, id).log)
  {
    hide Valid, Settle, Judged, VerdictOf, Calm;
    if id in s.live {
      var a := o(s.calls);
      SettleCalm(o, base, s.(calls := s.calls + 1), Judged(s.live[id], a), a, VerdictOf(s.live[id], a));
    }
  }
}
