/** What each handler of the controller guarantees when the joint invariant holds before it. */
module Handlers {
  import opened Base
  import opened MetaCodec
  import opened Procs
  import opened Validate
  import opened History
  import opened ControllerSpec
  import opened ControllerInv
  import opened ControllerKeeps
  import opened ControllerLines
  import opened ControllerLog
  import opened ControllerOrder
  import opened ControllerRuns
  import opened Records

  /** The joint invariant, on the world that the log describes. */
  ghost predicate Consistent(s: State) {
    Inv(s) && s.world == Replay(s.log)
  }

  lemma BootIsConsistent(slots: nat, log: seq<Effect>, clock: nat, calls: nat, newPids: bool)
    requires Replay(log).ok && (newPids ==> Replay(log).aimed)
    ensures Consistent(ControllerSpec.Boot(slots, log, clock, calls, newPids))
  {
    hide Valid, Inv, Replay;
    BootInv(slots, log, clock, calls, newPids);
  }

  lemma ConsistentAfter(s: State, t: State)
    requires Consistent(s) && Inv(t) && Extends(s, t)
    ensures Consistent(t)
  {
    hide Valid, Inv, Replay;
  }

  lemma AfterStop(o: Oracle, s: State, id: nat, reason: Stop)
    requires Core(s) && id in s.live && s.live[id].meta.state.Running? && reason != NoStop
    ensures var t := RequestStop(o, s, id, reason);
      Core(t) && id in t.live && t.live[id].stop == if s.live[id].stop == NoStop then reason else s.live[id].stop
  {
    hide Valid, Core, RequestStop, Stopped;
    RequestStopKeeps(o, s, id, reason);
    StoppedJob(s, RequestStop(o, s, id, reason), id);
  }

  /** A job that ends is gone, and its record is over. */
  lemma AfterEnd(o: Oracle, s: State, id: nat)
    requires Core(s) && id in s.live && s.live[id].meta.state.Running? && AllReaped(s.live[id].procs)
    ensures var t := Finalize(o, s, id); Core(t) && t.live == s.live - {id} && Over(t.world, id)
  {
    hide Valid, Core, Finalize, AllReaped, Over;
    FinalizeKeeps(o, s, id);
  }

  /** After schedule nothing that could run is left waiting. */
  lemma AfterSchedule(o: Oracle, s: State)
    requires Consistent(s)
    ensures var t := Schedule(o, s); Consistent(t) && WorkConserving(t)
  {
    hide Valid, Inv, Replay, Schedule, Extends, WorkConserving;
    ScheduleKeeps(o, s);
    ScheduleGrows(o, s);
    ConsistentAfter(s, Schedule(o, s));
  }

  /** A reap leaves the queue as it was and launches nothing. */
  lemma AfterReap(o: Oracle, s: State, pid: int32, how: WaitStatus)
    requires Consistent(s)
    ensures var t := NoteReap(o, s, pid, how);
      Consistent(t) && t.queue == s.queue && t.world.loops == s.world.loops
  {
    hide Valid, Inv, Replay, NoteReap, Extends;
    NoteReapKeeps(o, s, pid, how);
    NoteReapGrows(o, s, pid, how);
    NoteReapKeepsQueue(o, s, pid, how);
    ReapLaunchesNothing(o, s, pid, how);
    ConsistentAfter(s, NoteReap(o, s, pid, how));
  }

  /** After SUBMIT the job is live or its record is over, unless the controller is shutting down. */
  lemma AfterSubmit(o: Oracle, s: State, id: nat)
    requires Consistent(s) && (s.booted || (id in s.world.disk && s.world.disk[id].state in {Submitted, Queued}))
    ensures var t := Enqueue(o, s, id);
      Consistent(t) && (!s.shuttingDown && id in s.world.disk ==> id in t.live || Over(t.world, id))
  {
    hide Valid, Inv, Replay, Enqueue, Extends, Over;
    EnqueueKeeps(o, s, id);
    EnqueueGrows(o, s, id);
    ConsistentAfter(s, Enqueue(o, s, id));
  }

  /** After CANCEL the job is not live, or it has been told to stop. */
  lemma AfterCancel(o: Oracle, s: State, id: nat)
    requires Consistent(s)
    ensures var t := OnCancel(o, s, id); Consistent(t) && (id in t.live ==> t.live[id].stop != NoStop)
  {
    hide Valid, Inv, Replay, Extends, Save, RequestStop;
    OnCancelGrows(o, s, id);
    OnCancelKeeps(o, s, id);
    ConsistentAfter(s, OnCancel(o, s, id));
    if id in s.live {
      CancelTakesEffect(o, s, id);
    }
  }

  /** After SHUTDOWN nothing is queued and every job has been told to stop. */
  lemma AfterShutdown(o: Oracle, s: State, order: seq<nat>)
    requires Consistent(s) && s.booted && Covers(s, order)
    ensures var t := Shutdown(o, s, order);
      Consistent(t) && t.shuttingDown && t.queue == [] && forall id :: id in t.live ==> t.live[id].stop != NoStop
  {
    hide Valid, Core, Busy, Replay, Extends, Shutdown;
    ShutdownKeeps(o, s, order);
    ShutdownIsLine(o, s, order);
    HandleLineGrows(o, s, "SHUTDOWN", order);
    ConsistentAfter(s, Shutdown(o, s, order));
  }

  lemma ShutdownIsLine(o: Oracle, s: State, order: seq<nat>)
    ensures HandleLine(o, s, "SHUTDOWN", order) == Shutdown(o, s, order)
  {
    hide Valid, Shutdown;
  }

  lemma AfterLine(o: Oracle, s: State, line: string, order: seq<nat>)
    requires Consistent(s) && s.booted && Covers(s, order)
    ensures var t := HandleLine(o, s, line, order); Consistent(t) && t.booted
  {
    hide Valid, Inv, Replay, Extends, HandleLine;
    HandleLineKeeps(o, s, line, order);
    HandleLineGrows(o, s, line, order);
    ConsistentAfter(s, HandleLine(o, s, line, order));
  }

  /** After a deadline the job, if it has a timer, has been told to stop. */
  lemma AfterDeadline(o: Oracle, s: State, id: nat)
    requires Consistent(s)
    ensures var t := OnDeadline(o, s, id);
      Consistent(t) && (id in s.live && s.live[id].deadline ==> id in t.live && t.live[id].stop != NoStop)
  {
    hide Valid, Inv, Replay, Extends, SignalJob;
    OnDeadlineKeeps(o, s, id);
    OnDeadlineGrows(o, s, id);
    ConsistentAfter(s, OnDeadline(o, s, id));
    if id in s.live && s.live[id].deadline {
      StopIsSet(o, s, id, StopTimedOut);
    }
  }

  lemma StopIsSet(o: Oracle, s: State, id: nat, reason: Stop)
    requires id in s.live && reason != NoStop
    ensures var t := RequestStop(o, s, id, reason); id in t.live && t.live[id].stop != NoStop
  {
    hide Valid, Signals, Observe;
  }

  /** SIGKILL is due: the job was told to stop more than a second ago. */
  predicate Overdue(job: LiveJob, clock: nat) {
    job.stop != NoStop && !job.escalated && job.stopSentMs != 0 && clock - job.stopSentMs > 1000
  }

  /** After a tick no SIGKILL is due. */
  lemma AfterTick(o: Oracle, s: State, order: seq<nat>)
    requires Consistent(s) && Covers(s, order)
    ensures var t := OnTick(o, s, order);
      Consistent(t) && forall id :: id in t.live ==> !Overdue(t.live[id], t.clock)
  {
    hide Valid, Inv, Replay, Extends, Escalate, Overdue;
    OnTickKeeps(o, s, order);
    OnTickGrows(o, s, order);
    ConsistentAfter(s, OnTick(o, s, order));
    NoneOverdue(s.(calls := s.calls + 1, clock := s.clock + o(s.calls).elapsed), order);
  }

  lemma {:induction false} NoneOverdue(s: State, ids: seq<nat>)
    ensures var t := Escalate(s, ids);
      && t.live.Keys == s.live.Keys && t.clock == s.clock
      && forall id :: id in ids && id in t.live ==> !Overdue(t.live[id], t.clock)
  {
    hide Valid, Signals, Observe;
    if ids != [] {
      var front, id := ids[..|ids| - 1], ids[|ids| - 1];
      NoneOverdue(s, front);
      assert ids == front + [id];
    }
  }

  /** After recover every record belongs to a live job or is over. */
  lemma AfterRecover(o: Oracle, s: State, ids: seq<nat>)
    requires Consistent(s) && s.live == map[] && !s.booted && !s.shuttingDown && Distinct(ids)
    requires forall id :: id in s.world.disk ==> id in ids
    ensures var t := Recover(o, s, ids);
      Consistent(t) && t.booted && forall id :: id in t.world.disk ==> id in t.live || Over(t.world, id)
  {
    hide Valid, Inv, Replay, Extends, RecoverAll, Over;
    RecoverKeeps(o, s, ids);
    RecoverGrows(o, s, ids);
    ConsistentAfter(s, Recover(o, s, ids));
  }
}
