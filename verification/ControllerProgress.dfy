/**
 * How live jobs move on: a running job keeps its record, its processes and its first stop reason until it ends,
 * and once SHUTDOWN has been handled nothing starts and the processes still to be reaped only become fewer.
 */
module ControllerProgress {
  import opened Base
  import opened MetaCodec
  import opened Procs
  import opened Text
  import opened Validate
  import opened History
  import opened ControllerSpec
  import opened ControllerInv
  import opened ControllerKeeps
  import opened ControllerLaunch
  import opened ControllerLines
  import opened ControllerRuns

  /** One process, later: the same process, and reaped if it was. */
  predicate LaterProc(a: ProcRef, b: ProcRef) {
    b.pid == a.pid && b.start == a.start && b.grouped == a.grouped && (a.reaped ==> b.reaped)
  }

  /** One job, later: the same record and processes; a stop reason, once set, is the stop reason for good. */
  ghost predicate LaterJob(a: LiveJob, b: LiveJob) {
    && b.meta == a.meta && b.shm == a.shm && b.deadline == a.deadline && |b.procs| == |a.procs|
    && (forall i :: 0 <= i < |a.procs| ==> LaterProc(a.procs[i], b.procs[i]))
    && (a.stop != NoStop ==> b.stop == a.stop && b.stopSentMs == a.stopSentMs)
    && (a.escalated ==> b.escalated)
  }

  /** The jobs that ran before and are still live have only moved on. */
  ghost predicate Steady(s: State, t: State) {
    forall x :: x in s.live && x in t.live && !s.live[x].meta.state.Queued? ==> LaterJob(s.live[x], t.live[x])
  }

  /** Nothing has started: no job is new and no job has reached the fork loop. */
  ghost predicate Quiet(s: State, t: State) {
    t.shuttingDown == s.shuttingDown && t.live.Keys <= s.live.Keys && t.world.loops == s.world.loops
  }

  ghost predicate Winding(s: State, t: State) {
    Steady(s, t) && Quiet(s, t)
  }

  lemma SteadyOn(s: State, t: State, u: State)
    requires Steady(s, t) && Steady(t, u) && u.live.Keys * s.live.Keys <= t.live.Keys
    requires forall x :: x in s.live && x in t.live && !s.live[x].meta.state.Queued? ==> !t.live[x].meta.state.Queued?
    ensures Steady(s, u)
  {
    hide Valid;
  }

  lemma WindingOn(s: State, t: State, u: State)
    requires Winding(s, t) && Winding(t, u)
    ensures Winding(s, u)
  {
    hide Valid, LaterProc;
    assert forall x :: x in s.live && x in t.live && !s.live[x].meta.state.Queued? ==> !t.live[x].meta.state.Queued?;
    hide LaterJob;
    assert u.live.Keys * s.live.Keys <= t.live.Keys;
    SteadyOn(s, t, u);
  }

  // ---------- the steps ----------

  lemma WindingSelf(s: State, t: State)
    requires t.live == s.live && t.world.loops == s.world.loops && t.shuttingDown == s.shuttingDown
    ensures Winding(s, t)
  {
    hide Valid;
  }

  lemma StoppedWinds(s: State, t: State, id: nat)
    requires id in s.live && Stopped(s, t, id)
    requires s.live[id].stop == NoStop || t.live[id].stopSentMs == s.live[id].stopSentMs
    requires s.live[id].escalated ==> t.live[id].escalated
    ensures Winding(s, t)
  {
    hide Valid;
  }

  lemma MarkedWinds(s: State, t: State, id: nat, pid: int32, how: WaitStatus)
    requires id in s.live && Marked(s, t, id, pid, how)
    ensures Winding(s, t)
  {
    hide Valid;
  }

  lemma EndedWinds(s: State, t: State, id: nat)
    requires Ended(s, t, id) && id in s.live
    ensures Winding(s, t)
  {
    hide Valid, Over;
  }

  lemma RequestStopWinds(o: Oracle, s: State, id: nat, reason: Stop)
    requires Core(s) && id in s.live && s.live[id].meta.state.Running? && !reason.NoStop?
    ensures Winding(s, RequestStop(o, s, id, reason))
  {
    hide Valid, Core, Stopped, Winding;
    RequestStopKeeps(o, s, id, reason);
    var t := RequestStop(o, s, id, reason);
    if s.live[id].stop.NoStop? {
      StopEscalation(o, s, id, reason);
    }
    StoppedWinds(s, t, id);
  }

  lemma StopEscalation(o: Oracle, s: State, id: nat, reason: Stop)
    requires id in s.live && s.live[id].stop.NoStop?
    ensures id in RequestStop(o, s, id, reason).live
    ensures RequestStop(o, s, id, reason).live[id].escalated == s.live[id].escalated
  {
    hide Valid, Signals, Observe;
  }

  lemma NoteReapWinds(o: Oracle, s: State, pid: int32, how: WaitStatus)
    requires Inv(s)
    ensures Winding(s, NoteReap(o, s, pid, how))
  {
    hide Valid, Inv, Core, Emit, Mark, RequestStop, Finalize, BusyBut, Draining, Marked, AllReaped, AnyBad, Winding;
    EmitFrame(s, Waited(pid));
    WaitedLaunches(s, pid);
    if pid !in s.pidOwner {
      WindingSelf(s, Emit(s, Waited(pid)));
    } else {
      var id := s.pidOwner[pid];
      MarkKeeps(s, id, pid, how);
      var u := Emit(s, Waited(pid));
      var t := u.(live := u.live[id := u.live[id].(procs := Mark(u.live[id].procs, pid, how))]);
      MarkedWinds(s, t, id, pid, how);
      ReapedWinds(o, s, t, id);
    }
  }

  lemma WaitedLaunches(s: State, pid: int32)
    ensures Emit(s, Waited(pid)).world.loops == s.world.loops && Emit(s, Waited(pid)).shuttingDown == s.shuttingDown
  {
    hide Valid, Rule, Aimed;
  }

  lemma ReapedWinds(o: Oracle, s: State, t: State, id: nat)
    requires Winding(s, t) && Core(t) && BusyBut(t, id) && Draining(t) && id in t.live && t.live[id].meta.state.Running?
    ensures var ps := t.live[id].procs;
      var u := if AnyBad(ps) && t.live[id].stop == NoStop then RequestStop(o, t, id, StopFailed) else t;
      Winding(s, if AllReaped(ps) then Finalize(o, u, id) else u)
  {
    hide Valid, Core, RequestStop, Finalize, Draining, AllReaped, AnyBad, Stopped, Ended, Winding, BusyBut;
    var ps := t.live[id].procs;
    var u := if AnyBad(ps) && t.live[id].stop == NoStop then RequestStop(o, t, id, StopFailed) else t;
    if AnyBad(ps) && t.live[id].stop == NoStop {
      RequestStopKeeps(o, t, id, StopFailed);
      RequestStopWinds(o, t, id, StopFailed);
      WindingOn(s, t, u);
      StoppedJob(t, u, id);
    }
    if AllReaped(ps) {
      FinalizeKeeps(o, u, id);
      EndedWinds(u, Finalize(o, u, id), id);
      WindingOn(s, u, Finalize(o, u, id));
    }
  }

  lemma {:induction false} StopAllWinds(o: Oracle, s: State, ids: seq<nat>)
    requires Core(s) && Busy(s) && s.queue == []
    ensures Winding(s, StopAll(o, s, ids))
  {
    hide Valid, RequestStop, Core, Busy, Carried, Winding;
    if ids == [] {
      WindingSelf(s, s);
    } else {
      var front, id := ids[..|ids| - 1], ids[|ids| - 1];
      StopAllWinds(o, s, front);
      StopAllKeeps(o, s, front);
      var t := StopAll(o, s, front);
      if id in t.live {
        NoQueueMeansRunning(t, id);
        RequestStopWinds(o, t, id, StopShutdown);
        WindingOn(s, t, StopAll(o, s, ids));
      }
    }
  }

  lemma {:induction false} EscalateWinds(s: State, ids: seq<nat>)
    requires Inv(s)
    ensures Winding(s, Escalate(s, ids))
  {
    hide Valid, Inv, Carried, SignalJob, Stopped, Winding;
    if ids == [] {
      WindingSelf(s, s);
    } else {
      var front, id := ids[..|ids| - 1], ids[|ids| - 1];
      EscalateKeeps(s, front);
      EscalateWinds(s, front);
      var t := Escalate(s, front);
      if id in t.live {
        var job := t.live[id];
        if job.stop != NoStop && !job.escalated && job.stopSentMs != 0 && t.clock - job.stopSentMs > 1000 {
          EscalateOne(t, id);
          SignalKeepsLive(t, id, SIGKILL);
          StoppedWinds(t, Escalate(s, ids), id);
          WindingOn(s, t, Escalate(s, ids));
        }
      }
    }
  }

  lemma SignalKeepsLive(s: State, id: nat, sig: Signo)
    requires id in s.live
    ensures SignalJob(s, id, sig).live == s.live
  {
    hide Valid, Signals, Observe;
  }

  // ---------- shutting down ----------

  lemma EnqueueWinds(o: Oracle, s: State, id: nat)
    requires Inv(s) && s.shuttingDown
    ensures Winding(s, Enqueue(o, s, id))
  {
    hide Valid, Inv, Terminal, Problem, Schedule, Winding, Observe;
    WindingSelf(s, s);
    var t := Enqueue(o, s, id);
    SaveLaunches(o, s, id);
    WindingSelf(s, t);
  }

  lemma SaveLaunchesSame(o: Oracle, s: State, m: Meta)
    ensures Save(o, s, m).world.loops == s.world.loops && Save(o, s, m).live == s.live
  {
    hide Valid, Rule, Aimed;
  }

  lemma BehindLaunchesSame(o: Oracle, s: State, m: Meta)
    ensures var t := SaveBehind(o, s, m);
      t.world.loops == s.world.loops && t.live == s.live && t.shuttingDown == s.shuttingDown
  {
    hide Valid, Rule, Aimed;
  }

  lemma SaveLaunches(o: Oracle, s: State, id: nat)
    requires s.shuttingDown
    ensures Enqueue(o, s, id).world.loops == s.world.loops
    ensures Enqueue(o, s, id).live == s.live && Enqueue(o, s, id).shuttingDown
  {
    hide Valid, Terminal, Problem, Save, SaveBehind, Schedule;
    if id in s.world.disk {
      var m := s.world.disk[id].(state := Cancelled, error := "controller is shutting down",
                                 finishedMs := o(s.calls).realtime);
      SaveLaunchesSame(o, s.(calls := s.calls + 1), m);
      BehindLaunchesSame(o, s.(calls := s.calls + 1), m);
    }
  }

  lemma OnCancelWinds(o: Oracle, s: State, id: nat)
    requires Inv(s) && s.queue == []
    ensures Winding(s, OnCancel(o, s, id))
  {
    hide Valid, Inv, Terminal, Winding, Save, RequestStop;
    WindingSelf(s, s);
    if id !in s.live {
      if id in s.world.disk && !Terminal(s.world.disk[id].state) {
        var m := s.world.disk[id].(state := Cancelled, error := "cancelled", finishedMs := o(s.calls).realtime);
        SaveLaunchesSame(o, s.(calls := s.calls + 1), m);
        WindingSelf(s, OnCancel(o, s, id));
      }
    } else {
      CoreOfInv(s);
      NoQueueMeansRunning(s, id);
      RequestStopWinds(o, s, id, StopCancelled);
    }
  }

  lemma CoreOfInv(s: State)
    requires Inv(s)
    ensures Core(s) && Busy(s)
  {
  }

  lemma LineWinds(o: Oracle, s: State, line: string, order: seq<nat>)
    requires Inv(s) && s.shuttingDown
    ensures Winding(s, HandleLine(o, s, line, order))
  {
    hide Valid, Core, Busy, Enqueue, OnCancel, StopAll, ParsedU64, Winding;
    WindingSelf(s, s);
    assert s.(shuttingDown := true) == s;
    if line == "SHUTDOWN" {
      StopAllWinds(o, s, order);
    } else if "SUBMIT " <= line {
      match ParsedU64(line[7..])
      case Some(id) => EnqueueWinds(o, s, id);
      case None =>
    } else if "CANCEL " <= line {
      match ParsedU64(line[7..])
      case Some(id) => OnCancelWinds(o, s, id);
      case None =>
    }
  }

  /** While shutting down, every event winds down: nothing starts, nothing is added, and running jobs only move on. */
  lemma ShutdownOnlyWindsDown(o: Oracle, s: State, e: Event)
    requires RunInv(s) && s.shuttingDown && Enabled(s, e)
    ensures var t := Handle(o, s, e); Winding(s, t) && t.shuttingDown && t.queue == []
  {
    hide Valid, Inv, Emit, HandleLine, NoteReap, OnDeadline, OnTick, Winding, Recover;
    var t := Handle(o, s, e);
    match e {
      case NewRecord(m) =>
        CreatedLaunches(s, m);
        WindingSelf(s, t);
      case Boot(_) =>
      case Line(line, order) => LineWinds(o, s, line, order);
      case Reap(pid, how) => NoteReapWinds(o, s, pid, how);
      case Reschedule => WindingSelf(s, s);
      case Deadline(id) => DeadlineWinds(o, s, id);
      case Tick(order) => TickWinds(o, s, order);
    }
    HandleKeeps(o, s, e);
    QuietKeepsFlag(s, t);
  }

  lemma QuietKeepsFlag(s: State, t: State)
    requires Winding(s, t) && s.shuttingDown && Inv(t)
    ensures t.shuttingDown && t.queue == []
  {
    hide Valid, Core, Busy, Steady;
  }

  lemma CreatedLaunches(s: State, m: Meta)
    ensures Emit(s, Created(m)).world.loops == s.world.loops
    ensures Emit(s, Created(m)).live == s.live && Emit(s, Created(m)).shuttingDown == s.shuttingDown
  {
    hide Valid, Rule, Aimed;
  }

  lemma DeadlineWinds(o: Oracle, s: State, id: nat)
    requires Inv(s)
    ensures Winding(s, OnDeadline(o, s, id))
  {
    hide Valid, Core, Winding, RequestStop, Busy, Draining;
    WindingSelf(s, s);
    if id in s.live && s.live[id].deadline {
      DeadlineRuns(s, id);
      RequestStopWinds(o, s, id, StopTimedOut);
    }
  }

  lemma TickWinds(o: Oracle, s: State, order: seq<nat>)
    requires Inv(s)
    ensures Winding(s, OnTick(o, s, order))
  {
    hide Valid, Inv, Winding, Escalate, Carried;
    var t := s.(calls := s.calls + 1, clock := s.clock + o(s.calls).elapsed);
    ClockKeeps(s, t);
    WindingSelf(s, t);
    EscalateWinds(t, order);
    WindingOn(s, t, OnTick(o, s, order));
  }

  // ---------- idle ----------

  /** The processes that have not been reaped, by job and position. */
  function Unreaped(live: map<nat, LiveJob>): set<(nat, nat)> {
    set id, i: nat | id in live.Keys && 0 <= i < |live[id].procs| && !live[id].procs[i].reaped :: (id, i)
  }

  /** Winding down, the processes still to be reaped never become more. */
  lemma UnreapedShrinks(s: State, t: State)
    requires Winding(s, t) && Inv(s) && s.shuttingDown
    ensures Unreaped(t.live) <= Unreaped(s.live) && |Unreaped(t.live)| <= |Unreaped(s.live)|
  {
    hide *;
    UnreapedSubset(s, t);
    FewerPairs(Unreaped(t.live), Unreaped(s.live));
  }

  lemma FewerPairs(a: set<(nat, nat)>, b: set<(nat, nat)>)
    requires a <= b
    ensures |a| <= |b|
  {
    assert b == a + (b - a);
  }

  lemma UnreapedSubset(s: State, t: State)
    requires Winding(s, t) && Inv(s) && s.shuttingDown
    ensures Unreaped(t.live) <= Unreaped(s.live)
  {
    hide Valid, Busy;
    forall p | p in Unreaped(t.live) ensures p in Unreaped(s.live) {
      var (id, i) := p;
      assert id in t.live && i < |t.live[id].procs| && !t.live[id].procs[i].reaped;
      assert JobInv(s, id);
      assert id !in s.queue;
      assert LaterJob(s.live[id], t.live[id]);
    }
  }

  /** The loop may exit exactly when no process is left to reap, and then no slot is used and no pid is owned. */
  lemma IdleWhenAllReaped(s: State)
    requires Inv(s) && s.shuttingDown
    ensures s.live == map[] && s.queue == [] <==> Unreaped(s.live) == {}
    ensures s.live == map[] ==> s.slotsUsed == 0 && s.pidOwner == map[]
  {
    hide Valid, WorldInv, Shaped, SlicesOf, StopsMatch, Tracked, OnDisk, OthersAtRest, AnyBad;
    if s.live != map[] {
      var id :| id in s.live;
      assert JobInv(s, id);
      assert !AllReaped(s.live[id].procs);
      var i: nat :| i < |s.live[id].procs| && !s.live[id].procs[i].reaped;
      assert (id, i) in Unreaped(s.live);
    } else {
      assert Slots(s.live) == {};
    }
  }

  // ---------- every event, shutting down or not ----------

  lemma DroppedSteady(s: State, t: State, id: nat)
    requires Dropped(s, t, id)
    ensures Steady(s, t)
  {
    hide Valid, Over, SameElsewhere;
  }

  lemma LaunchedSteady(s: State, t: State, id: nat, cs: seq<Child>)
    requires Launched(s, t, id, cs) && id in s.live && s.live[id].meta.state.Queued?
    ensures Steady(s, t)
  {
    hide Valid, SameElsewhere, Own, Joined, FreshPids, NewlyRunning;
  }

  /** Steady, with every job of `t` a job of `s` that has not gone back to the queue. */
  ghost predicate Onward(s: State, t: State) {
    && Steady(s, t) && t.live.Keys <= s.live.Keys
    && forall x :: x in t.live && !s.live[x].meta.state.Queued? ==> !t.live[x].meta.state.Queued?
  }

  lemma SteadyOnward(s: State, t: State)
    requires Steady(s, t) && t.live.Keys <= s.live.Keys
    ensures Onward(s, t)
  {
    hide Valid, LaterProc;
  }

  lemma OnwardOn(s: State, t: State, u: State)
    requires Onward(s, t) && Onward(t, u)
    ensures Onward(s, u)
  {
    hide Valid, LaterJob;
    SteadyOn(s, t, u);
    hide Steady;
  }

  lemma {:induction false} ScheduleOnward(o: Oracle, s: State)
    requires Inv(s)
    ensures Onward(s, Schedule(o, s))
    decreases |s.queue|
  {
    hide Valid, Core, Busy, Draining, Launch, Dropped, Launched, Onward, Best, Steady;
    OnwardSelf(s);
    if !(s.shuttingDown || s.slotsUsed >= s.slotsMax) {
      var best := Best(s.live, s.queue);
      if best.Some? {
        var id := best.value;
        var u := Launch(o, s.(queue := RemoveAll(s.queue, id)), id);
        var cs := LaunchKeeps(o, s, id);
        if Dropped(s, u, id) {
          DroppedSteady(s, u, id);
          DroppedLive(s, u, id);
        } else {
          LaunchedSteady(s, u, id, cs);
          LaunchedMemory(s, u, id, cs);
        }
        SteadyOnward(s, u);
        ScheduleOnward(o, u);
        OnwardOn(s, u, Schedule(o, u));
      }
    }
  }

  lemma OnwardSelf(s: State)
    ensures Onward(s, s)
  {
    hide Valid;
  }

  lemma EnqueueSteady(o: Oracle, s: State, id: nat)
    requires Inv(s) && s.booted
    ensures Steady(s, Enqueue(o, s, id))
  {
    hide Valid, Problem, Save, Core, Schedule, Steady, Terminal, Busy, Draining;
    if s.shuttingDown {
      EnqueueWinds(o, s, id);
    } else {
      OnwardSelf(s);
      if id in s.world.disk && id !in s.live && !Terminal(s.world.disk[id].state) {
        RecordOf(s, id);
        var m := s.world.disk[id];
        if Valid(m) {
          AdmitKeeps(o, s, id);
          var m: GoodMeta := m.(state := Queued);
          var u := Save(o, s, m).(queue := s.queue + [id], live := s.live[id := NewJob(m)]);
          ScheduleOnward(o, u);
          AddedSteady(s, u, Schedule(o, u), id, m);
        } else {
          InvalidHasProblem(m);
          SteadySame(s, Enqueue(o, s, id));
        }
      }
    }
  }

  lemma SteadySame(s: State, t: State)
    requires t.live == s.live
    ensures Steady(s, t)
  {
    hide Valid;
  }

  lemma AddedSteady(s: State, u: State, t: State, id: nat, m: GoodMeta)
    requires id !in s.live && u.live == s.live[id := NewJob(m)] && Onward(u, t)
    ensures Steady(s, t)
  {
    hide Valid, LaterJob;
  }

  lemma OnCancelSteady(o: Oracle, s: State, id: nat)
    requires Core(s)
    ensures Onward(s, OnCancel(o, s, id))
  {
    hide Valid, Save, Core, Dropped, RequestStop, Onward, Terminal, Winding;
    OnwardSelf(s);
    var t := OnCancel(o, s, id);
    if id !in s.live {
      SteadySame(s, t);
      SteadyOnward(s, t);
    } else if s.live[id].meta.state.Queued? {
      CancelQueued(o, s, id);
      DroppedSteady(s, t, id);
      DroppedLive(s, t, id);
      SteadyOnward(s, t);
    } else {
      LiveJobRuns(s, id);
      RequestStopWinds(o, s, id, StopCancelled);
      WindingOnward(s, t);
    }
  }

  lemma WindingOnward(s: State, t: State)
    requires Winding(s, t)
    ensures Onward(s, t)
  {
    hide Valid, LaterProc;
  }

  lemma {:induction false} CancelAllOnward(o: Oracle, s: State, ids: seq<nat>)
    requires Core(s) && Busy(s) && Distinct(ids) && forall x :: x in ids ==> x in s.queue
    ensures Onward(s, CancelAll(o, s, ids))
  {
    hide Valid, OnCancel, Core, Busy, Carried, Onward;
    if ids == [] {
      OnwardSelf(s);
    } else {
      var front, id := ids[..|ids| - 1], ids[|ids| - 1];
      assert ids == front + [id];
      CancelAllOnward(o, s, front);
      CancelAllKeeps(o, s, front);
      OnCancelSteady(o, CancelAll(o, s, front), id);
      OnwardOn(s, CancelAll(o, s, front), CancelAll(o, s, ids));
    }
  }

  lemma ShutdownOnward(o: Oracle, s: State, order: seq<nat>)
    requires Inv(s) && Covers(s, order)
    ensures Onward(s, Shutdown(o, s, order))
  {
    hide Valid, Core, Busy, Carried, CancelAll, StopAll, Onward, Winding, Draining;
    var s1 := s.(shuttingDown := true);
    BeginShutdown(s);
    QueueIsDistinct(s);
    CancelAllKeeps(o, s1, s.queue);
    CancelAllOnward(o, s1, s.queue);
    var t := CancelAll(o, s1, s.queue);
    EmptyQueue(t);
    StopAllWinds(o, t, order);
    WindingOnward(t, StopAll(o, t, order));
    OnwardOn(s1, t, StopAll(o, t, order));
    OnwardFrom(s, s1, StopAll(o, t, order));
  }

  lemma OnwardFrom(s: State, s1: State, t: State)
    requires s1.live == s.live && Onward(s1, t)
    ensures Onward(s, t)
  {
    hide Valid, LaterJob;
  }

  lemma OnwardIsSteady(s: State, t: State)
    requires Onward(s, t) || Winding(s, t)
    ensures Steady(s, t)
  {
    hide Valid, LaterJob;
  }

  /** In every event a running job that stays live keeps its record, its processes and its first stop reason. */
  lemma RunningJobsMoveOn(o: Oracle, s: State, e: Event)
    requires RunInv(s) && Enabled(s, e)
    ensures Steady(s, Handle(o, s, e))
  {
    hide Valid, Core, Busy, Draining, Emit, NoteReap, OnDeadline, OnTick, Winding, Onward, Steady, Recover, Schedule,
         Replay,
         Shutdown, Enqueue, OnCancel, ParsedU64;
    var t := Handle(o, s, e);
    SteadySame(s, s);
    match e {
      case NewRecord(m) =>
        CreatedLaunches(s, m);
        SteadySame(s, t);
      case Boot(_) => SteadyEmpty(s, t);
      case Line(line, order) =>
        if line == "SHUTDOWN" {
          ShutdownOnward(o, s, order);
        } else if "SUBMIT " <= line {
          match ParsedU64(line[7..])
          case Some(id) => EnqueueSteady(o, s, id);
          case None =>
        } else if "CANCEL " <= line {
          match ParsedU64(line[7..])
          case Some(id) => OnCancelSteady(o, s, id);
          case None =>
        }
      case Reap(pid, how) => NoteReapWinds(o, s, pid, how);
      case Reschedule => ScheduleOnward(o, s);
      case Deadline(id) => DeadlineWinds(o, s, id);
      case Tick(order) => TickWinds(o, s, order);
    }
    if Onward(s, t) || Winding(s, t) {
      OnwardIsSteady(s, t);
    }
  }

  lemma SteadyEmpty(s: State, t: State)
    requires s.live == map[]
    ensures Steady(s, t)
  {
  }
}
