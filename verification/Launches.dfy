/**
 * What a launch makes of a job: it runs exactly when nothing it needs was refused, on the children that were forked,
 * with a deadline timer exactly when one was asked for and could be had.
 */
module Launches {
  import opened Base
  import opened MetaCodec
  import opened Procs
  import opened Text
  import opened Validate
  import opened History
  import opened ControllerSpec
  import opened ControllerInv
  import opened ControllerKeeps
  import opened ControllerLaunch
  import opened ControllerLines
  import opened ControllerRuns
  import opened CleanRuns
  import opened Delivery
  import opened Requests

  /** The record with the size of the input. */
  function Sized(m: Meta, env: Launching): Meta {
    if m.op.OpExec? || env.inspect.None? then m else m.(bytes := env.inspect.value)
  }

  /** Nothing the launch needs is refused: the input, the log, the shared region and one process for each slice. */
  predicate CanStart(m: Meta, env: Launching) {
    && env.logOk && (m.op.OpExec? || (env.inspect.Some? && env.mapsOk))
    && |SlicesOf(Sized(m, env))| <= |env.children|
  }

  /** The processes are the first children, not one of them waited for. */
  predicate RunsOn(ps: seq<ProcRef>, cs: seq<Child>) {
    && |ps| <= |cs|
    && forall i :: 0 <= i < |ps| ==> ps[i] == ProcRef(cs[i].pid, cs[i].start, false, cs[i].grouped, NotReaped)
  }

  /** The job as a launch leaves it that finds this environment. */
  predicate StartedAs(m: Meta, a: Answer, job: LiveJob) {
    && RunsOn(job.procs, a.launch.children) && |job.procs| == |SlicesOf(Sized(m, a.launch))|
    && job.meta == Sized(m, a.launch).(startedMs := a.realtime, state := Running, procs := Formatted(job.procs))
    && job.shm == (if m.op.OpExec? then None else Some(|job.procs|))
    && (job.deadline <==> m.deadlineS > 0 && a.launch.timerOk)
    && job.usesSlot && job.stop == NoStop && !job.escalated
  }

  /** A launch that was refused something leaves a record that says failed, and why. */
  ghost predicate NotStarted(t: State, id: nat, why: string) {
    && id !in t.live
    && (id !in t.world.lost ==>
          id in t.world.disk && t.world.disk[id].state.Failed? && t.world.disk[id].error == why)
  }

  // ---------- one launch ----------

  lemma SpawnExactly(o: Oracle, s: State, id: nat, m: GoodMeta, a: Answer)
    requires id in s.live && s.live[id] == NewJob(s.live[id].meta) && m.id == id
    ensures var t, n := Spawn(o, s, id, m, a), |SlicesOf(m)|;
      if n <= |a.launch.children| then
        && id in t.live && RunsOn(t.live[id].procs, a.launch.children) && |t.live[id].procs| == n
        && t.live[id].meta == m.(startedMs := a.realtime, state := Running, procs := Formatted(t.live[id].procs))
        && t.live[id].shm == (if m.op.OpExec? then None else Some(n))
        && (t.live[id].deadline <==> m.deadlineS > 0 && a.launch.timerOk)
        && t.live[id].usesSlot && t.live[id].stop == NoStop && !t.live[id].escalated
      else NotStarted(t, id, a.text)
  {
    hide Valid, Save, StartLoop, Forks, Aborts, Started, Drop, SlicesOf, Formatted;
    ValidFitsTheRegion(m);
    var n := |SlicesOf(m)|;
    var cs := if |a.launch.children| < n then a.launch.children else a.launch.children[..n];
    var begun: Meta := m.(startedMs := a.realtime);
    var running: Meta := begun.(state := Running, procs := Formatted(Spawned(cs)));
    StaysValid(m, running);
    SameSlices(m, running);
    var u := Forks(StartLoop(o, s, id, m, cs), id, cs);
    if |cs| < n {
      FailedSave(o, Aborts(u, cs), begun.(state := Failed, error := a.text, finishedMs := a.realtime));
    } else {
      StartedIs(u, id, running, cs, a.launch.timerOk);
      var t := Started(u, id, running, cs, a.launch.timerOk);
      assert Spawn(o, s, id, m, a) == Save(o, t, running);
    }
  }

  lemma FailedSave(o: Oracle, s: State, m: Meta)
    requires m.state.Failed?
    ensures NotStarted(Drop(Save(o, s, m), m.id), m.id, m.error)
  {
    hide Valid, Rule, Aimed;
  }

  lemma StartedIs(s: State, id: nat, m: GoodMeta, cs: seq<Child>, timerOk: bool)
    requires id in s.live && 1 <= |SlicesOf(m)| <= 16
    ensures id in Started(s, id, m, cs, timerOk).live
    ensures var job := Started(s, id, m, cs, timerOk).live[id];
      job == s.live[id].(meta := m, procs := Spawned(cs), deadline := m.deadlineS > 0 && timerOk, usesSlot := true,
                         shm := if m.op.OpExec? then None else Some(|SlicesOf(m)|))
  {
    hide Valid, SlicesOf, Own, Spawned;
  }

  /** A launch makes a job run exactly when nothing it needs is refused. */
  lemma LaunchOutcome(o: Oracle, s: State, id: nat)
    requires id in s.live && s.live[id] == NewJob(s.live[id].meta) && s.live[id].meta.id == id
    ensures var t, m, a := Launch(o, s, id), s.live[id].meta, o(s.calls);
      if CanStart(m, a.launch) then id in t.live && StartedAs(m, a, t.live[id]) else NotStarted(t, id, a.text)
  {
    LaunchIs(o, s, id);
    hide Valid, Save, Spawn, Launch, SlicesOf, Formatted, RunsOn, NotStarted, Release;
    var m, a := s.live[id].meta, o(s.calls);
    var t := s.(calls := s.calls + 1);
    if !m.op.OpExec? && a.launch.inspect.None? {
      var f := m.(error := a.text, state := Failed, finishedMs := a.realtime);
      FailedSave(o, t, f);
      ReleaseDrops(Save(o, t, f), id, a.text);
    } else {
      var n := Sized(m, a.launch);
      FailedSave(o, t, n.(state := Failed, error := a.text));
      SpawnExactly(o, t, id, n, a);
    }
  }

  lemma ReleaseDrops(s: State, id: nat, why: string)
    requires id in s.live && NotStarted(Drop(s, id), id, why)
    ensures NotStarted(Drop(Release(s, id), id), id, why)
  {
    hide Valid;
  }

  // ---------- schedule ----------

  /** What a turn of schedule makes of a job that waited: it waits on, runs as launched, or its launch has failed. */
  ghost predicate Scheduled(o: Oracle, was: LiveJob, t: State, id: nat) {
    || (id in t.live && t.live[id] == was)
    || (id in t.live && exists c: nat :: CanStart(was.meta, o(c).launch) && StartedAs(was.meta, o(c), t.live[id]))
    || exists c: nat :: !CanStart(was.meta, o(c).launch) && NotStarted(t, id, o(c).text)
  }

  /** Every job as schedule finds it, told by what it leaves. */
  ghost predicate AllScheduled(o: Oracle, live: map<nat, LiveJob>, t: State) {
    forall x :: x in live ==>
      if live[x].meta.state.Queued? then Scheduled(o, live[x], t, x) else x in t.live && t.live[x] == live[x]
  }

  lemma ScheduledOnce(o: Oracle, s: State, id: nat)
    requires Inv(s) && !s.shuttingDown && id in s.live && s.live[id].meta.state.Queued? && s.slotsUsed < s.slotsMax
    ensures var u := Launch(o, s.(queue := RemoveAll(s.queue, id)), id);
      && Inv(u) && Scheduled(o, s.live[id], u, id)
      && (forall x :: x != id ==> (x in u.live <==> x in s.live))
      && (forall x :: x != id && x in s.live ==> u.live[x] == s.live[x])
      && (forall x :: x != id && x in s.world.disk ==> x in u.world.disk && u.world.disk[x] == s.world.disk[x])
      && s.world.lost <= u.world.lost
  {
    hide Valid, Core, Busy, Draining, Launch, CanStart, StartedAs, NotStarted, NewlyRunning, Joined, Own;
    var cs := LaunchKeeps(o, s, id);
    QueuedIsNew(s, id);
    LaunchOutcome(o, s.(queue := RemoveAll(s.queue, id)), id);
  }

  lemma QueuedIsNew(s: State, id: nat)
    requires Inv(s) && id in s.live && s.live[id].meta.state.Queued?
    ensures s.live[id] == NewJob(s.live[id].meta) && s.live[id].meta.id == id
  {
    hide Valid, Shared, Busy, Draining, OnDisk;
    assert JobInv(s, id);
  }

  lemma {:induction false} ScheduleOutcomes(o: Oracle, s: State)
    requires Inv(s)
    ensures AllScheduled(o, s.live, Schedule(o, s))
    decreases |s.queue|
  {
    hide Valid, Inv, Launch, Best, Scheduled;
    WaitingStays(o, s);
    if !(s.shuttingDown || s.slotsUsed >= s.slotsMax) {
      var best := Best(s.live, s.queue);
      if best.Some? {
        var id := best.value;
        var u := Launch(o, s.(queue := RemoveAll(s.queue, id)), id);
        ScheduledOnce(o, s, id);
        ScheduleOutcomes(o, u);
        ScheduleCarries(o, u);
        ScheduledThen(o, s, u, Schedule(o, u), id);
      }
    }
  }

  lemma WaitingStays(o: Oracle, s: State)
    ensures AllScheduled(o, s.live, s)
  {
    hide Valid, StartedAs, NotStarted, CanStart;
  }

  lemma ScheduleCarries(o: Oracle, s: State)
    requires Inv(s)
    ensures var t := Schedule(o, s);
      && t.live.Keys <= s.live.Keys && s.world.lost <= t.world.lost
      && forall x :: x !in s.live && x in s.world.disk ==> x in t.world.disk && t.world.disk[x] == s.world.disk[x]
  {
    hide Valid, Inv, Schedule, Over;
    ScheduleKeeps(o, s);
  }

  lemma ScheduledThen(o: Oracle, s: State, u: State, v: State, id: nat)
    requires id in s.live && s.live[id].meta.state.Queued? && Scheduled(o, s.live[id], u, id)
    requires forall x :: x != id && x in s.live ==> x in u.live && u.live[x] == s.live[x]
    requires AllScheduled(o, u.live, v) && v.live.Keys <= u.live.Keys && u.world.lost <= v.world.lost
    requires forall x :: x !in u.live && x in u.world.disk ==> x in v.world.disk && v.world.disk[x] == u.world.disk[x]
    ensures AllScheduled(o, s.live, v)
  {
    hide Valid, CanStart, Terminal;
    forall x | x in s.live && s.live[x].meta.state.Queued? ensures Scheduled(o, s.live[x], v, x) {
      if x == id {
        if id in u.live && u.live[id] != s.live[id] {
          StartedRuns(o, s.live[id], u.live[id]);
          assert v.live[id] == u.live[id];
        }
      }
    }
  }

  lemma StartedRuns(o: Oracle, was: LiveJob, job: LiveJob)
    requires exists c: nat :: CanStart(was.meta, o(c).launch) && StartedAs(was.meta, o(c), job)
    ensures job.meta.state.Running?
  {
    hide Valid, CanStart;
  }

  /**
   * Over every run, a turn of schedule leaves each job that waits waiting, or running as its launch found it, or it has
   * failed because its launch was refused something; the jobs that run are left alone, and no job waits while a slot is
   * free. Which are taken, and in what order, is the subject of `ControllerOrder`.
   */
  lemma ScheduleStartsJobs(o: Oracle, ss: seq<State>, ps: seq<Step>, k: nat, id: nat)
    requires Run(o, ss, ps) && k < |ps| && ps[k] == Do(Reschedule) && id in ss[k].live
    ensures var was := ss[k].live[id];
      if was.meta.state.Queued? then Scheduled(o, was, ss[k + 1], id)
      else id in ss[k + 1].live && ss[k + 1].live[id] == was
    ensures ss[k].shuttingDown || ss[k + 1].slotsUsed == ss[k + 1].slotsMax || ss[k + 1].queue == []
  {
    hide Valid, Run, RunInv, Inv, Schedule, Scheduled, Carried;
    StepRuns(o, ss, ps, k);
    ScheduleKeeps(o, ss[k]);
    ScheduleOutcomes(o, ss[k]);
  }

  /** A SUBMIT that queues its job does the same to it, and to every other job. */
  lemma SubmitStartsJobs(o: Oracle, ss: seq<State>, ps: seq<Step>, k: nat, text: string, id: uint64,
                         order: seq<nat>, x: nat)
    requires Run(o, ss, ps) && k < |ps| && Denotes(text, id) && ps[k] == Do(Line("SUBMIT " + text, order))
    requires !ss[k].shuttingDown && id !in ss[k].live && id in ss[k].world.disk
    requires Valid(ss[k].world.disk[id]) && !Terminal(ss[k].world.disk[id].state)
    ensures x == id ==>
      Scheduled(o, NewJob(Requeued(ss[k].world.disk[id])), ss[k + 1], id)
    ensures x != id && x in ss[k].live ==>
      if ss[k].live[x].meta.state.Queued? then Scheduled(o, ss[k].live[x], ss[k + 1], x)
      else x in ss[k + 1].live && ss[k + 1].live[x] == ss[k].live[x]
  {
    hide Valid, Run, RunInv, Inv, HandleLine, Enqueue, Scheduled, AllScheduled, Denotes, Terminal;
    StepRuns(o, ss, ps, k);
    SubmitIsSubmit(o, ss[k], text, id, order);
    AdmissionOutcomes(o, ss[k], id);
    var live := ss[k].live[id as nat := NewJob(Requeued(ss[k].world.disk[id]))];
    EachScheduled(o, live, ss[k + 1], id);
    if x in ss[k].live {
      EachScheduled(o, live, ss[k + 1], x);
    }
  }

  lemma EachScheduled(o: Oracle, live: map<nat, LiveJob>, t: State, x: nat)
    requires AllScheduled(o, live, t) && x in live
    ensures if live[x].meta.state.Queued? then Scheduled(o, live[x], t, x) else x in t.live && t.live[x] == live[x]
  {
    hide Valid, Scheduled;
  }

  function Requeued(m: Meta): GoodMeta
    requires Valid(m)
  {
    StaysValid(m, m.(state := Queued));
    m.(state := Queued)
  }

  lemma AdmissionOutcomes(o: Oracle, s: State, id: nat)
    requires Inv(s) && s.booted && !s.shuttingDown && id !in s.live && id in s.world.disk
    requires Valid(s.world.disk[id]) && !Terminal(s.world.disk[id].state)
    ensures AllScheduled(o, s.live[id := NewJob(Requeued(s.world.disk[id]))], Enqueue(o, s, id))
  {
    WaitingRecord(s, id);
    AdmitKeeps(o, s, id);
    StaysValid(s.world.disk[id], s.world.disk[id].(state := Queued));
    hide Valid, Problem, Save, Inv, Schedule, Admitted, Terminal, AllScheduled;
    var m: GoodMeta := s.world.disk[id].(state := Queued);
    var u := Save(o, s, m).(queue := s.queue + [id], live := s.live[id := NewJob(m)]);
    ScheduleOutcomes(o, u);
    assert Enqueue(o, s, id) == Schedule(o, u);
  }

  // ---------- what ends a job ----------

  /** The jobs that run stay live. */
  ghost predicate RunningStay(s: State, t: State) {
    forall x :: x in s.live && !s.live[x].meta.state.Queued? ==> x in t.live
  }

  lemma ScheduleStays(o: Oracle, s: State)
    requires Inv(s)
    ensures RunningStay(s, Schedule(o, s))
  {
    hide Valid, Inv, Schedule, Scheduled;
    ScheduleOutcomes(o, s);
  }

  lemma EnqueueStays(o: Oracle, s: State, id: nat)
    requires Inv(s) && s.booted
    ensures RunningStay(s, Enqueue(o, s, id))
  {
    hide Inv, Save, Observe, Schedule, Scheduled, AllScheduled, Problem, Terminal;
    if id in s.world.disk {
      InvalidHasProblem(s.world.disk[id]);
      if !s.shuttingDown && id !in s.live && !Terminal(s.world.disk[id].state) && Valid(s.world.disk[id]) {
        AdmissionOutcomes(o, s, id);
        AdmissionStays(o, s, id);
      }
    }
  }

  lemma AdmissionStays(o: Oracle, s: State, id: nat)
    requires id !in s.live && id in s.world.disk && Valid(s.world.disk[id])
    requires AllScheduled(o, s.live[id := NewJob(Requeued(s.world.disk[id]))], Enqueue(o, s, id))
    ensures RunningStay(s, Enqueue(o, s, id))
  {
    hide Valid, Enqueue, Scheduled, Requeued;
  }

  lemma RequestStopStays(o: Oracle, s: State, id: nat, reason: Stop)
    requires id in s.live
    ensures RequestStop(o, s, id, reason).live.Keys == s.live.Keys
  {
    hide Valid, SignalJob;
    var now := s.clock + o(s.calls).elapsed;
    var u := s.(calls := s.calls + 1, clock := now,
                live := s.live[id := s.live[id].(stop := reason, stopSentMs := now)]);
    SignalJobHolds(u.live, u, id, SIGTERM);
  }

  lemma OnCancelStays(o: Oracle, s: State, id: nat)
    ensures RunningStay(s, OnCancel(o, s, id))
  {
    hide Valid, Save, RequestStop, Terminal;
    if id in s.live {
      RequestStopStays(o, s, id, StopCancelled);
    }
  }

  lemma ShutdownStays(o: Oracle, s: State, order: seq<nat>)
    requires Inv(s) && forall x :: x in s.live ==> x in order
    ensures RunningStay(s, Shutdown(o, s, order))
  {
    hide Valid, Inv, Shutdown;
    ShutdownShutsDown(o, s, order);
  }

  lemma LineStays(o: Oracle, s: State, line: string, order: seq<nat>)
    requires Inv(s) && s.booted && forall x :: x in s.live ==> x in order
    ensures RunningStay(s, HandleLine(o, s, line, order))
  {
    hide Valid, Inv, Enqueue, OnCancel, Shutdown, ParsedU64;
    if line == "SHUTDOWN" {
      ShutdownStays(o, s, order);
    } else if "SUBMIT " <= line {
      match ParsedU64(line[7..])
      case Some(id) => EnqueueStays(o, s, id);
      case None =>
    } else if "CANCEL " <= line {
      match ParsedU64(line[7..])
      case Some(id) => OnCancelStays(o, s, id);
      case None =>
    }
  }

  lemma TickStays(o: Oracle, s: State, order: seq<nat>)
    ensures RunningStay(s, OnTick(o, s, order))
  {
    hide Valid, Escalate;
    EscalateIs(s.(calls := s.calls + 1, clock := s.clock + o(s.calls).elapsed), order);
  }

  lemma DeadlineStays(o: Oracle, s: State, id: nat)
    ensures RunningStay(s, OnDeadline(o, s, id))
  {
    hide Valid, RequestStop;
    if id in s.live {
      RequestStopStays(o, s, id, StopTimedOut);
    }
  }

  /**
   * Over every run a running job leaves only when the end of one of its processes is reported, and then (see
   * `Requests.ReapTakesEffect`) it was the last one.
   */
  lemma OnlyReapsEndJobs(o: Oracle, ss: seq<State>, ps: seq<Step>, k: nat, id: nat)
    requires Run(o, ss, ps) && k < |ps| && ps[k].Do?
    requires id in ss[k].live && !ss[k].live[id].meta.state.Queued? && id !in ss[k + 1].live
    ensures var e := ps[k].event; e.Reap? && e.pid in ss[k].pidOwner && ss[k].pidOwner[e.pid] == id
  {
    hide Valid, Run, RunInv, Inv, HandleLine, Schedule, Recover, OnDeadline, OnTick, NoteReap, Emit;
    StepRuns(o, ss, ps, k);
    var s := ss[k];
    match ps[k].event
    case NewRecord(m) => EmitFrame(s, Created(m));
    case Boot(ids) => NothingLive(s);
    case Line(line, order) => LineStays(o, s, line, order);
    case Reap(pid, how) => ReapTakesEffect(o, ss, ps, k, pid, how);
    case Reschedule => ScheduleStays(o, s);
    case Deadline(x) => DeadlineStays(o, s, x);
    case Tick(order) => TickStays(o, s, order);
  }

  lemma NothingLive(s: State)
    requires RunInv(s) && !s.booted
    ensures s.live == map[]
  {
    hide Valid, Inv, Replay;
  }
}
