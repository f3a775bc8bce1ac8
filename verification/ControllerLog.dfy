/**
 * Every handler only adds to the log, and the world it carries is the world the log describes. Only a SUBMIT of a live
 * job during shutdown replaces a record behind a job's back.
 */
module ControllerLog {
  import opened Base
  import opened MetaCodec
  import opened Procs
  import opened Text
  import opened Validate
  import opened History
  import opened ControllerSpec
  import R = Results

  ghost predicate Extends(s: State, t: State) {
    && |s.log| <= |t.log| && t.log[..|s.log|] == s.log
    && (s.world == Replay(s.log) ==> t.world == Replay(t.log))
  }

  ghost predicate Grows(s: State, t: State) {
    Extends(s, t) && t.world.behind == s.world.behind
  }

  lemma Same(s: State, t: State)
    requires t.log == s.log && t.world == s.world
    ensures Grows(s, t)
  {
    hide Valid, Replay;
  }

  lemma Then(s: State, t: State, u: State)
    requires Grows(s, t) && Extends(t, u)
    ensures Extends(s, u)
    ensures Grows(t, u) ==> Grows(s, u)
  {
    hide Valid, Replay;
    assert u.log[..|s.log|] == u.log[..|t.log|][..|s.log|];
  }

  lemma EmitGrows(s: State, e: Effect)
    ensures Extends(s, Emit(s, e))
    ensures !e.SavedBehind? ==> Grows(s, Emit(s, e))
  {
    hide Valid, Rule, Aimed;
    assert (s.log + [e])[..|s.log|] == s.log;
  }

  lemma SaveGrows(o: Oracle, s: State, m: Meta)
    ensures Grows(s, Save(o, s, m))
  {
    hide Valid, Emit, Extends;
    var t := s.(calls := s.calls + 1);
    Same(s, t);
    EmitGrows(t, if o(s.calls).wrote then Saved(m) else SaveLost(m));
    Then(s, t, Save(o, s, m));
  }

  lemma SaveBehindGrows(o: Oracle, s: State, m: Meta)
    ensures Extends(s, SaveBehind(o, s, m)) && SaveBehind(o, s, m).world.behind <= s.world.behind + {m.id}
  {
    hide Valid, Extends, Rule, Aimed;
    var t := s.(calls := s.calls + 1);
    Same(s, t);
    EmitGrows(t, if o(s.calls).wrote then SavedBehind(m) else SaveLost(m));
    Then(s, t, SaveBehind(o, s, m));
  }

  lemma {:induction false} SignalsGrow(s: State, id: nat, ps: seq<ProcRef>, sig: Signo)
    ensures Grows(s, Signals(s, id, ps, sig))
  {
    hide Valid, Emit, Extends;
    if ps == [] {
      Same(s, s);
    } else {
      var t, p := Signals(s, id, ps[..|ps| - 1], sig), ps[|ps| - 1];
      SignalsGrow(s, id, ps[..|ps| - 1], sig);
      if !(p.reaped || p.pid <= 0) {
        EmitGrows(t, Signalled(id, p.pid, sig));
        Then(s, t, Signals(s, id, ps, sig));
      }
    }
  }

  lemma SignalJobGrows(s: State, id: nat, sig: Signo)
    requires id in s.live
    ensures Grows(s, SignalJob(s, id, sig))
  {
    hide Valid, Emit, Extends, Signals;
    var t := Emit(s, StopRound(id, sig, s.clock));
    EmitGrows(s, StopRound(id, sig, s.clock));
    SignalsGrow(t, id, s.live[id].procs, sig);
    Then(s, t, SignalJob(s, id, sig));
  }

  lemma RequestStopGrows(o: Oracle, s: State, id: nat, reason: Stop)
    requires id in s.live
    ensures Grows(s, RequestStop(o, s, id, reason))
  {
    hide Valid, Extends, SignalJob;
    Same(s, s);
    if s.live[id].stop == NoStop {
      var now := s.clock + o(s.calls).elapsed;
      var u := s.(calls := s.calls + 1, clock := now,
                  live := s.live[id := s.live[id].(stop := reason, stopSentMs := now)]);
      Same(s, u);
      SignalJobGrows(u, id, SIGTERM);
      Then(s, u, SignalJob(u, id, SIGTERM));
    }
  }

  lemma SettleGrows(o: Oracle, s: State, m: Meta, a: Answer, v: R.Verdict)
    ensures Grows(s, Settle(o, s, m, a, v))
  {
    hide Valid, Extends, Save, Emit;
    if v.Good? && v.body != "" {
      var t := Save(o, s, m.(state := Persisting));
      SaveGrows(o, s, m.(state := Persisting));
      if a.outputWritten {
        var u := Emit(t, OutputWritten(m.id, v.body));
        EmitGrows(t, OutputWritten(m.id, v.body));
        SaveGrows(o, u, m);
        Then(s, t, u);
        Then(s, u, Save(o, u, m));
      } else {
        SaveGrows(o, t, m.(state := Failed, error := a.text));
        Then(s, t, Settle(o, s, m, a, v));
      }
    } else {
      SaveGrows(o, s, m);
    }
  }

  lemma FinalizeGrows(o: Oracle, s: State, id: nat)
    ensures Grows(s, Finalize(o, s, id))
  {
    hide Valid, Extends, Settle, Judged, VerdictOf;
    Same(s, s);
    if id in s.live && !s.live[id].finished {
      var a := o(s.calls);
      var s0 := s.(calls := s.calls + 1);
      var t := Settle(o, s0, Judged(s.live[id], a), a, VerdictOf(s.live[id], a));
      Same(s, s0);
      SettleGrows(o, s0, Judged(s.live[id], a), a, VerdictOf(s.live[id], a));
      Then(s, s0, t);
      SettleKeepsLive(o, s0, Judged(s.live[id], a), a, VerdictOf(s.live[id], a));
      Same(t, Finalize(o, s, id));
      Then(s, t, Finalize(o, s, id));
    }
  }

  lemma SettleKeepsLive(o: Oracle, s: State, m: Meta, a: Answer, v: R.Verdict)
    ensures Settle(o, s, m, a, v).live == s.live
  {
    hide Valid, Save, Observe;
  }

  lemma NoteReapGrows(o: Oracle, s: State, pid: int32, how: WaitStatus)
    ensures Grows(s, NoteReap(o, s, pid, how))
  {
    hide Valid, Extends, Emit, RequestStop, Finalize, Mark, AllReaped, AnyBad;
    EmitGrows(s, Waited(pid));
    var s1 := Emit(s, Waited(pid));
    if pid in s1.pidOwner && s1.pidOwner[pid] in s1.live {
      var id := s1.pidOwner[pid];
      var ps := Mark(s1.live[id].procs, pid, how);
      var t := s1.(live := s1.live[id := s1.live[id].(procs := ps)]);
      Same(s1, t);
      Then(s, s1, t);
      var u := if AnyBad(ps) && t.live[id].stop == NoStop then RequestStop(o, t, id, StopFailed) else t;
      RequestStopGrows(o, t, id, StopFailed);
      if u != t {
        Then(s, t, u);
      }
      FinalizeGrows(o, u, id);
      Then(s, u, Finalize(o, u, id));
    }
  }

  // ---------- launching ----------

  lemma {:induction false} ForksGrow(s: State, id: nat, cs: seq<Child>)
    ensures Grows(s, Forks(s, id, cs))
  {
    hide Valid, Emit, Extends;
    if cs == [] {
      Same(s, s);
    } else {
      var t := Forks(s, id, cs[..|cs| - 1]);
      ForksGrow(s, id, cs[..|cs| - 1]);
      EmitGrows(t, Forked(id, cs[|cs| - 1].pid));
      Then(s, t, Forks(s, id, cs));
    }
  }

  lemma {:induction false} AbortsGrow(s: State, cs: seq<Child>)
    ensures Grows(s, Aborts(s, cs))
  {
    hide Valid, Emit, Extends;
    if cs == [] {
      Same(s, s);
    } else {
      var t := Aborts(s, cs[..|cs| - 1]);
      AbortsGrow(s, cs[..|cs| - 1]);
      EmitGrows(t, Aborted(cs[|cs| - 1].pid));
      Then(s, t, Aborts(s, cs));
    }
  }

  lemma DropSaveGrows(o: Oracle, s: State, id: nat, m: Meta)
    ensures Grows(s, Drop(Save(o, s, m), id))
  {
    hide Valid, Save, Extends;
    SaveGrows(o, s, m);
    Same(Save(o, s, m), Drop(Save(o, s, m), id));
    Then(s, Save(o, s, m), Drop(Save(o, s, m), id));
  }

  lemma StartLoopGrows(o: Oracle, s: State, id: nat, m: GoodMeta, cs: seq<Child>)
    ensures Grows(s, StartLoop(o, s, id, m, cs))
  {
    hide Valid, Save, Extends, Emit, FreshPids;
    var t := Save(o, s, m.(state := Starting));
    SaveGrows(o, s, m.(state := Starting));
    var u := Emit(t, ForkLoop(id));
    EmitGrows(t, ForkLoop(id));
    Then(s, t, u);
    Same(u, StartLoop(o, s, id, m, cs));
    Then(s, u, StartLoop(o, s, id, m, cs));
  }

  lemma SpawnGrows(o: Oracle, s: State, id: nat, m: GoodMeta, a: Answer)
    requires id in s.live
    ensures Grows(s, Spawn(o, s, id, m, a))
  {
    var cs, last := SpawnEnds(o, s, id, m, a);
    hide Valid, Save, Grows, StartLoop, Forks, Aborts, Started, SlicesOf, Formatted, Spawned, Spawn, Drop;
    var u := Forks(StartLoop(o, s, id, m, cs), id, cs);
    LoopGrows(o, s, id, m, cs);
    if last.state.Failed? {
      FailureGrows(o, s, u, id, last, cs);
    } else {
      StartedGrows(o, u, id, last, cs, a.launch.timerOk);
      GrowsOn(s, u, Spawn(o, s, id, m, a));
    }
  }

  lemma GrowsOn(s: State, t: State, u: State)
    requires Grows(s, t) && Grows(t, u)
    ensures Grows(s, u)
  {
    hide Valid, Extends;
    Then(s, t, u);
  }

  lemma LoopGrows(o: Oracle, s: State, id: nat, m: GoodMeta, cs: seq<Child>)
    ensures Grows(s, Forks(StartLoop(o, s, id, m, cs), id, cs))
  {
    hide Valid, Grows, StartLoop, Forks;
    var t := StartLoop(o, s, id, m, cs);
    StartLoopGrows(o, s, id, m, cs);
    ForksGrow(t, id, cs);
    GrowsOn(s, t, Forks(t, id, cs));
  }

  lemma FailureGrows(o: Oracle, s: State, u: State, id: nat, m: Meta, cs: seq<Child>)
    requires Grows(s, u)
    ensures Grows(s, Drop(Save(o, Aborts(u, cs), m), id))
  {
    hide Valid, Grows, Save, Aborts, Drop;
    AbortsGrow(u, cs);
    GrowsOn(s, u, Aborts(u, cs));
    DropSaveGrows(o, Aborts(u, cs), id, m);
    GrowsOn(s, Aborts(u, cs), Drop(Save(o, Aborts(u, cs), m), id));
  }

  lemma StartedGrows(o: Oracle, s: State, id: nat, m: GoodMeta, cs: seq<Child>, timerOk: bool)
    requires id in s.live && 1 <= |SlicesOf(m)| <= 16
    ensures Grows(s, Save(o, Started(s, id, m, cs, timerOk), m))
  {
    hide Valid, Save, Extends, SlicesOf, Own, Spawned;
    var t := Started(s, id, m, cs, timerOk);
    Same(s, t);
    SaveGrows(o, t, m);
    Then(s, t, Save(o, t, m));
  }

  lemma LaunchGrows(o: Oracle, s: State, id: nat)
    ensures Grows(s, Launch(o, s, id))
  {
    hide Valid, Save, Extends, Spawn;
    Same(s, s);
    if id in s.live {
      var a := o(s.calls);
      var t := s.(calls := s.calls + 1);
      Same(s, t);
      var m := s.live[id].meta;
      if !m.op.OpExec? && a.launch.inspect.None? {
        var f := m.(error := a.text, state := Failed, finishedMs := a.realtime);
        SaveGrows(o, t, f);
        Then(s, t, Save(o, t, f));
        Same(Save(o, t, f), Launch(o, s, id));
        Then(s, Save(o, t, f), Launch(o, s, id));
      } else {
        var m: Meta := if m.op.OpExec? then m else m.(bytes := a.launch.inspect.value);
        StaysValid(s.live[id].meta, m);
        if !a.launch.logOk || (!m.op.OpExec? && !a.launch.mapsOk) {
          DropSaveGrows(o, t, id, m.(state := Failed, error := a.text));
        } else {
          SpawnGrows(o, t, id, m, a);
        }
        Then(s, t, Launch(o, s, id));
      }
    }
  }

  lemma {:induction false} ScheduleGrows(o: Oracle, s: State)
    ensures Grows(s, Schedule(o, s))
    decreases |s.queue|
  {
    hide Valid, Extends, Launch, Best;
    Same(s, s);
    if !(s.shuttingDown || s.slotsUsed >= s.slotsMax) {
      var best := Best(s.live, s.queue);
      if best.Some? {
        var t := s.(queue := RemoveAll(s.queue, best.value));
        var u := Launch(o, t, best.value);
        Same(s, t);
        LaunchGrows(o, t, best.value);
        Then(s, t, u);
        ScheduleGrows(o, u);
        Then(s, u, Schedule(o, u));
      }
    }
  }

  // ---------- control lines, timers, restart ----------

  /** A SUBMIT of a live job during shutdown whose record is not terminal yet. */
  predicate LateSubmit(s: State, id: nat) {
    s.shuttingDown && id in s.live && id in s.world.disk && !Terminal(s.world.disk[id].state)
  }

  lemma EnqueueGrows(o: Oracle, s: State, id: nat)
    ensures Extends(s, Enqueue(o, s, id))
    ensures !LateSubmit(s, id) ==> Grows(s, Enqueue(o, s, id))
    ensures (id in s.world.disk ==> s.world.disk[id].id == id) ==>
      Enqueue(o, s, id).world.behind <= s.world.behind + {id}
  {
    hide Extends, Save, SaveBehind, Schedule, Problem, Terminal;
    Same(s, s);
    if id in s.world.disk {
      InvalidHasProblem(s.world.disk[id]);
      StaysValid(s.world.disk[id], s.world.disk[id].(state := Queued));
      hide Valid;
      var a := o(s.calls);
      var t := s.(calls := s.calls + 1);
      Same(s, t);
      var m := s.world.disk[id];
      if s.shuttingDown {
        var c := m.(state := Cancelled, error := "controller is shutting down", finishedMs := a.realtime);
        if id in s.live {
          SaveBehindGrows(o, t, c);
          Then(s, t, SaveBehind(o, t, c));
        } else {
          SaveGrows(o, t, c);
          Then(s, t, Save(o, t, c));
        }
      } else if !(id in s.live || Terminal(m.state)) {
        if !Valid(m) {
          SaveGrows(o, t, m.(state := Failed, error := Problem(m).value, finishedMs := a.realtime));
          Then(s, t, Enqueue(o, s, id));
        } else {
          var m: GoodMeta := m.(state := Queued);
          AdmissionGrows(o, s, id, m);
        }
      }
    }
  }

  /** Such a SUBMIT does replace the record, unless the save is lost. */
  lemma LateSubmitOverwrites(o: Oracle, s: State, id: nat)
    requires LateSubmit(s, id) && s.world.disk[id].id == id
    ensures var t := Enqueue(o, s, id);
      && t.live == s.live
      && t.world.behind == s.world.behind + (if o(s.calls + 1).wrote then {id} else {})
      && t.world.lost == s.world.lost + (if o(s.calls + 1).wrote then {} else {id})
      && (o(s.calls + 1).wrote ==> id in t.world.disk && t.world.disk[id].state.Cancelled?)
  {
    hide Valid, Problem, Rule, Aimed, Schedule;
  }

  lemma AdmissionGrows(o: Oracle, s: State, id: nat, m: GoodMeta)
    ensures Grows(s, Schedule(o, Save(o, s, m).(queue := s.queue + [id], live := s.live[id := NewJob(m)])))
  {
    hide Valid, Extends, Save, Schedule;
    var u := Save(o, s, m);
    var v := u.(queue := s.queue + [id], live := s.live[id := NewJob(m)]);
    SaveGrows(o, s, m);
    Same(u, v);
    Then(s, u, v);
    ScheduleGrows(o, v);
    Then(s, v, Schedule(o, v));
  }

  lemma OnCancelGrows(o: Oracle, s: State, id: nat)
    ensures Grows(s, OnCancel(o, s, id))
  {
    hide Valid, Extends, Save, RequestStop, Terminal;
    Same(s, s);
    var a := o(s.calls);
    var t := s.(calls := s.calls + 1);
    Same(s, t);
    if id !in s.live {
      if id in s.world.disk {
        var m := s.world.disk[id].(state := Cancelled, error := "cancelled", finishedMs := a.realtime);
        SaveGrows(o, t, m);
        Then(s, t, Save(o, t, m));
      }
    } else if s.live[id].meta.state.Queued? {
      var m := s.live[id].meta.(state := Cancelled, error := "cancelled before start", finishedMs := a.realtime);
      DropSaveGrows(o, t, id, m);
      Then(s, t, Drop(Save(o, t, m), id));
      Same(Drop(Save(o, t, m), id), OnCancel(o, s, id));
      Then(s, Drop(Save(o, t, m), id), OnCancel(o, s, id));
    } else {
      RequestStopGrows(o, s, id, StopCancelled);
    }
  }

  lemma {:induction false} CancelAllGrows(o: Oracle, s: State, ids: seq<nat>)
    ensures Grows(s, CancelAll(o, s, ids))
  {
    hide Valid, Extends, OnCancel;
    if ids == [] {
      Same(s, s);
    } else {
      CancelAllGrows(o, s, ids[..|ids| - 1]);
      OnCancelGrows(o, CancelAll(o, s, ids[..|ids| - 1]), ids[|ids| - 1]);
      Then(s, CancelAll(o, s, ids[..|ids| - 1]), CancelAll(o, s, ids));
    }
  }

  lemma {:induction false} StopAllGrows(o: Oracle, s: State, ids: seq<nat>)
    ensures Grows(s, StopAll(o, s, ids))
  {
    hide Valid, Extends, RequestStop;
    if ids == [] {
      Same(s, s);
    } else {
      var t, id := StopAll(o, s, ids[..|ids| - 1]), ids[|ids| - 1];
      StopAllGrows(o, s, ids[..|ids| - 1]);
      if id in t.live && t.live[id].meta.state in {Running, Starting} {
        RequestStopGrows(o, t, id, StopShutdown);
        Then(s, t, StopAll(o, s, ids));
      }
    }
  }

  /** The id that a control line submits, if it is a well-formed SUBMIT line. */
  function SubmitId(line: string): Option<nat> {
    if "SUBMIT " <= line then
      match ParsedU64(line[7..]) { case Some(id) => Some(id) case None => None }
    else None
  }

  lemma HandleLineGrows(o: Oracle, s: State, line: string, order: seq<nat>)
    ensures Extends(s, HandleLine(o, s, line, order))
    ensures SubmitId(line).None? || !LateSubmit(s, SubmitId(line).value) ==> Grows(s, HandleLine(o, s, line, order))
    ensures FiledById(s.world) && SubmitId(line).Some? ==>
      HandleLine(o, s, line, order).world.behind <= s.world.behind + {SubmitId(line).value}
  {
    hide Valid, Extends, LateSubmit, CancelAll, StopAll, Enqueue, OnCancel, ParsedU64;
    Same(s, s);
    if line == "SHUTDOWN" {
      var s1 := s.(shuttingDown := true);
      Same(s, s1);
      CancelAllGrows(o, s1, s.queue);
      var t := CancelAll(o, s1, s.queue);
      Then(s, s1, t);
      StopAllGrows(o, t, order);
      Then(s, t, StopAll(o, t, order));
    } else if "SUBMIT " <= line {
      match ParsedU64(line[7..])
      case Some(id) => EnqueueGrows(o, s, id);
      case None =>
    } else if "CANCEL " <= line {
      match ParsedU64(line[7..])
      case Some(id) => OnCancelGrows(o, s, id);
      case None =>
    }
  }

  lemma OnDeadlineGrows(o: Oracle, s: State, id: nat)
    ensures Grows(s, OnDeadline(o, s, id))
  {
    hide Valid, Extends, RequestStop;
    Same(s, s);
    if id in s.live && s.live[id].deadline {
      RequestStopGrows(o, s, id, StopTimedOut);
    }
  }

  lemma {:induction false} EscalateGrows(s: State, ids: seq<nat>)
    ensures Grows(s, Escalate(s, ids))
  {
    hide Valid, Extends, SignalJob;
    if ids == [] {
      Same(s, s);
    } else {
      var t, id := Escalate(s, ids[..|ids| - 1]), ids[|ids| - 1];
      EscalateGrows(s, ids[..|ids| - 1]);
      if id in t.live {
        SignalJobGrows(t, id, SIGKILL);
        var u := SignalJob(t, id, SIGKILL);
        if Escalate(s, ids) != t {
          Same(u, Escalate(s, ids));
          Then(s, t, u);
          Then(s, u, Escalate(s, ids));
        }
      }
    }
  }

  lemma OnTickGrows(o: Oracle, s: State, order: seq<nat>)
    ensures Grows(s, OnTick(o, s, order))
  {
    hide Valid, Extends, Escalate;
    var t := s.(calls := s.calls + 1, clock := s.clock + o(s.calls).elapsed);
    Same(s, t);
    EscalateGrows(t, order);
    Then(s, t, OnTick(o, s, order));
  }

  lemma {:induction false} KillLeftoversGrows(o: Oracle, s: State, id: nat, ps: seq<ProcRef>)
    ensures Grows(s, KillLeftovers(o, s, id, ps))
  {
    hide Valid, Extends, Emit;
    if ps == [] {
      Same(s, s);
    } else {
      var t, p := KillLeftovers(o, s, id, ps[..|ps| - 1]), ps[|ps| - 1];
      KillLeftoversGrows(o, s, id, ps[..|ps| - 1]);
      var u := t.(calls := t.calls + 1);
      Same(t, u);
      Then(s, t, u);
      EmitGrows(u, LeftoverKilled(id, p.pid, p.start, p.start));
      Then(s, u, Emit(u, LeftoverKilled(id, p.pid, p.start, p.start)));
    }
  }

  lemma RecoverOneGrows(o: Oracle, s: State, id: nat)
    requires !s.shuttingDown
    ensures Grows(s, RecoverOne(o, s, id))
  {
    hide Valid, Extends, Save, KillLeftovers, Enqueue, ParsedProcs;
    Same(s, s);
    if id in s.world.disk {
      var m := s.world.disk[id];
      var t := KillLeftovers(o, s, id, ParsedProcs(m.procs));
      KillLeftoversGrows(o, s, id, ParsedProcs(m.procs));
      var u := t.(calls := t.calls + 1);
      Same(t, u);
      Then(s, t, u);
      var f := m.(state := Failed, error := RESTARTED, finishedMs := o(t.calls).realtime);
      SaveGrows(o, u, f);
      Then(s, u, Save(o, u, f));
      EnqueueGrows(o, s, id);
    }
  }

  lemma {:induction false} RecoverAllGrows(o: Oracle, s: State, ids: seq<nat>)
    requires !s.shuttingDown
    ensures Grows(s, RecoverAll(o, s, ids)) && !RecoverAll(o, s, ids).shuttingDown
  {
    hide Valid, Extends, RecoverOne;
    if ids == [] {
      Same(s, s);
    } else {
      RecoverAllGrows(o, s, ids[..|ids| - 1]);
      RecoverOneGrows(o, RecoverAll(o, s, ids[..|ids| - 1]), ids[|ids| - 1]);
      Then(s, RecoverAll(o, s, ids[..|ids| - 1]), RecoverAll(o, s, ids));
    }
  }

  lemma RecoverGrows(o: Oracle, s: State, ids: seq<nat>)
    requires !s.shuttingDown
    ensures Grows(s, Recover(o, s, ids))
  {
    hide Valid, Extends, RecoverAll;
    RecoverAllGrows(o, s, ids);
    Same(RecoverAll(o, s, ids), Recover(o, s, ids));
    Then(s, RecoverAll(o, s, ids), Recover(o, s, ids));
  }
}
