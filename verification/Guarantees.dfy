/** What whole runs of the controller guarantee, whatever the events, the crashes and the environment. */
module Guarantees {
  import opened Base
  import opened MetaCodec
  import opened Procs
  import opened Validate
  import opened History
  import opened ControllerSpec
  import opened ControllerInv
  import opened ControllerKeeps
  import opened ControllerLaunch
  import opened ControllerRuns
  import opened ControllerProgress

  // ---------- the joint invariant ----------

  /**
   * In every state of a run: the queue has no duplicates and holds exactly the live jobs that are queued; every
   * other live job is running and waits for a process; slots_used is exact and within bounds.
   */
  lemma JointInvariant(o: Oracle, ss: seq<State>, ps: seq<Step>, k: nat)
    requires Run(o, ss, ps) && k < |ss|
    ensures var s := ss[k];
      && Distinct(s.queue)
      && (forall id :: id in s.queue <==> id in s.live && s.live[id].meta.state.Queued?)
      && (forall id :: id in s.live && id !in s.queue ==>
            s.live[id].meta.state.Running? && s.live[id].usesSlot && !AllReaped(s.live[id].procs))
      && s.slotsUsed == |Slots(s.live)| && 0 <= s.slotsUsed <= s.slotsMax
  {
    hide Valid, RunInv, Core, Busy, Run;
    RunKeepsInv(o, ss, ps, k);
    var s := ss[k];
    InvOfRun(s);
    InvShape(s);
  }

  lemma InvOfRun(s: State)
    requires RunInv(s)
    ensures Inv(s) && Core(s) && Busy(s)
  {
    hide Valid, Core, Busy, Replay;
  }

  lemma InvShape(s: State)
    requires Inv(s)
    ensures Distinct(s.queue)
    ensures forall id :: id in s.queue <==> id in s.live && s.live[id].meta.state.Queued?
    ensures forall id :: id in s.live && id !in s.queue ==>
      s.live[id].meta.state.Running? && s.live[id].usesSlot && !AllReaped(s.live[id].procs)
    ensures s.slotsUsed == |Slots(s.live)| && 0 <= s.slotsUsed <= s.slotsMax
  {
    hide Valid, WorldInv, OwnersLive, OthersAtRest, OnDisk, SlicesOf, Shaped, StopsMatch, Tracked, AllReaped, Slots;
    forall id | id in s.live
      ensures id in s.queue <==> s.live[id].meta.state.Queued?
      ensures id !in s.queue ==> s.live[id].meta.state.Running? && s.live[id].usesSlot
    {
      assert JobInv(s, id);
    }
  }

  /** A process that did not exit 0 stops its siblings: between events its job has a stop reason. */
  lemma BadExitStopsTheJob(o: Oracle, ss: seq<State>, ps: seq<Step>, k: nat, id: nat)
    requires Run(o, ss, ps) && k < |ss| && id in ss[k].live
    ensures AnyBad(ss[k].live[id].procs) ==> ss[k].live[id].stop != NoStop
  {
    hide Valid, RunInv, Core, Run, Draining, AnyBad, AllReaped;
    RunKeepsInv(o, ss, ps, k);
    InvOfRun(ss[k]);
    MetaOfJob(ss[k], id);
    if ss[k].live[id].meta.state.Queued? {
      NoBadProcess(ss[k].live[id].procs);
    }
  }

  lemma NoBadProcess(ps: seq<ProcRef>)
    ensures ps == [] ==> !AnyBad(ps)
  {
  }

  /** The record of a running job lists exactly its processes, as recover will read them. */
  lemma RecordListsProcesses(o: Oracle, ss: seq<State>, ps: seq<Step>, k: nat, id: nat)
    requires Run(o, ss, ps) && k < |ss| && id in ss[k].live && !ss[k].live[id].meta.state.Queued?
    requires id !in ss[k].world.lost && id !in ss[k].world.behind
    ensures id in ss[k].world.disk && ParsedProcs(ss[k].world.disk[id].procs) == AllRecorded(ss[k].live[id].procs)
  {
    hide Valid, RunInv, Inv, Run, ParsedProcs, Formatted;
    RunKeepsInv(o, ss, ps, k);
    InvOfRun(ss[k]);
    RecordMatches(ss[k], id);
    ShapeOf(ss[k], id);
    ProcsRoundTrip(ss[k].live[id].procs);
  }

  lemma RecordMatches(s: State, id: nat)
    requires Core(s) && id in s.live && id !in s.world.lost
    ensures id in s.world.disk && (s.world.disk[id] == s.live[id].meta <==> id !in s.world.behind)
    ensures id in s.world.behind ==> s.world.disk[id].state.Cancelled? && s.live[id].meta.state.Running?
  {
    hide Valid, Shared, SlicesOf, Shaped, StopsMatch, Tracked, AllReaped;
    assert JobInv(s, id);
  }

  lemma ShapeOf(s: State, id: nat)
    requires Core(s) && id in s.live && !s.live[id].meta.state.Queued?
    ensures Shaped(s.live[id].meta, s.live[id].procs, s.live[id].shm)
  {
    hide Valid, Shared, Shaped, OnDisk, StopsMatch, Tracked;
    assert JobInv(s, id);
  }

  /** As long as fork only returns new pids, pid_owner holds exactly the pids of live jobs, under their own job. */
  lemma PidOwnerIsExact(o: Oracle, ss: seq<State>, ps: seq<Step>, k: nat, id: nat, pid: int32)
    requires Run(o, ss, ps) && k < |ss| && ss[k].newPids && id in ss[k].live
    ensures pid in ss[k].pidOwner && ss[k].pidOwner[pid] == id <==> pid in Pids(ss[k].live[id].procs)
    ensures pid in ss[k].pidOwner ==> ss[k].pidOwner[pid] in ss[k].live
  {
    hide Valid, RunInv, Inv, Run;
    RunKeepsInv(o, ss, ps, k);
    InvOfRun(ss[k]);
    OwnerExact(ss[k], id, pid);
  }

  lemma OwnerExact(s: State, id: nat, pid: int32)
    requires Core(s) && s.newPids && id in s.live
    ensures pid in s.pidOwner && s.pidOwner[pid] == id <==> pid in Pids(s.live[id].procs)
    ensures pid in s.pidOwner ==> s.pidOwner[pid] in s.live
  {
    hide Valid, WorldInv, OthersAtRest, OnDisk, SlicesOf, Shaped, StopsMatch, AllReaped, Slots;
    assert JobInv(s, id);
  }

  /**
   * With a reused pid it is not. Job `a` is live and `pid`, one of its processes, has been reaped; the kernel gives
   * `pid` to a process of `b`, which schedule launches. When `a` ends, the entry that names `b` for `pid` goes too,
   * and the exit of that process is then reported to nobody: `b` stays live.
   */
  lemma ReusedPidIsForgotten(o: Oracle, s: State, a: nat, b: nat, pid: int32, last: int32, how: WaitStatus,
                             bHow: WaitStatus)
    requires Inv(s) && !s.shuttingDown && s.slotsUsed < s.slotsMax && Best(s.live, s.queue) == Some(b)
    requires a in s.live && !s.live[a].meta.state.Queued? && AllReaped(Mark(s.live[a].procs, last, how))
    requires last in s.pidOwner && s.pidOwner[last] == a && pid in Pids(s.live[a].procs)
    requires var u := Launch(o, s.(queue := RemoveAll(s.queue, b)), b);
      b in u.live && pid in Pids(u.live[b].procs) && last !in Pids(u.live[b].procs)
    ensures var u := Launch(o, s.(queue := RemoveAll(s.queue, b)), b);
      && pid in u.pidOwner && u.pidOwner[pid] == b
      && var t := NoteReap(o, u, last, how);
      && a !in t.live && b in t.live && t.live[b] == u.live[b]
      && pid !in t.pidOwner && NoteReap(o, t, pid, bHow).live == t.live
  {
    hide Valid, Core, Busy, Draining, Launch, NoteReap, AllReaped, Mark, Pids, Launched, Dropped;
    var u := Launch(o, s.(queue := RemoveAll(s.queue, b)), b);
    var cs := LaunchKeeps(o, s, b);
    LaunchOwns(s, u, a, b, cs, pid, last);
    LastReap(o, u, a, b, pid, last, how);
    NobodyReaps(o, NoteReap(o, u, last, how), pid, bHow);
  }

  lemma LaunchOwns(s: State, u: State, a: nat, b: nat, cs: seq<Child>, pid: int32, last: int32)
    requires a in s.live && !s.live[a].meta.state.Queued? && b in s.live && s.live[b].meta.state.Queued?
    requires (Dropped(s, u, b) || Launched(s, u, b, cs)) && b in u.live
    requires last in s.pidOwner && s.pidOwner[last] == a && pid in Pids(u.live[b].procs) &&
      last !in Pids(u.live[b].procs)
    ensures a in u.live && u.live[a] == s.live[a] && last in u.pidOwner && u.pidOwner[last] == a &&
      pid in u.pidOwner && u.pidOwner[pid] == b
  {
    hide Valid, Joined, FreshPids, SameElsewhere, Shaped, Over, Pids;
  }

  lemma LastReap(o: Oracle, s: State, a: nat, b: nat, pid: int32, last: int32, how: WaitStatus)
    requires Inv(s) && a in s.live && b in s.live && a != b && last in s.pidOwner && s.pidOwner[last] == a
    requires pid in Pids(s.live[a].procs) && AllReaped(Mark(s.live[a].procs, last, how))
    ensures var t := NoteReap(o, s, last, how);
      a !in t.live && b in t.live && t.live[b] == s.live[b] && pid !in t.pidOwner
  {
    hide Valid, Core, Busy, Draining, Emit, RequestStop, Finalize, AllReaped, AnyBad, Mark, Pids, Marked;
    EmitFrame(s, Waited(last));
    MarkKeeps(s, a, last, how);
    var u := Emit(s, Waited(last));
    var t := u.(live := u.live[a := u.live[a].(procs := Mark(u.live[a].procs, last, how))]);
    var v := if AnyBad(t.live[a].procs) && t.live[a].stop == NoStop then RequestStop(o, t, a, StopFailed) else t;
    if AnyBad(t.live[a].procs) && t.live[a].stop == NoStop {
      RequestStopKeeps(o, t, a, StopFailed);
    }
    MarkKeepsPids(s.live[a].procs, last, how);
    StoppedOthers(t, v, a, b);
    FinalizeForgets(o, v, a, b, pid);
  }

  lemma StoppedOthers(t: State, v: State, a: nat, b: nat)
    requires a in t.live && b in t.live && a != b && (v == t || Stopped(t, v, a))
    ensures v.live.Keys == t.live.Keys && v.live[b] == t.live[b] && v.live[a].procs == t.live[a].procs
  {
    hide Valid;
  }

  lemma FinalizeForgets(o: Oracle, s: State, a: nat, b: nat, pid: int32)
    requires Core(s) && a in s.live && b in s.live && a != b && pid in Pids(s.live[a].procs)
    ensures var t := Finalize(o, s, a); a !in t.live && b in t.live && t.live[b] == s.live[b] && pid !in t.pidOwner
  {
    hide Valid, Core, Judged, VerdictOf, Settle, Pids;
    LiveIsOwn(s, a);
    SettleKeepsMemory(o, s, a);
  }

  lemma LiveIsOwn(s: State, id: nat)
    requires Core(s) && id in s.live
    ensures s.live[id].meta.id == id && !s.live[id].finished
  {
    hide Valid, Shared, SlicesOf, Shaped, StopsMatch, Tracked, AllReaped, OnDisk;
    assert JobInv(s, id);
  }

  lemma NobodyReaps(o: Oracle, s: State, pid: int32, how: WaitStatus)
    requires pid !in s.pidOwner
    ensures NoteReap(o, s, pid, how).live == s.live
  {
    hide Valid, Observe;
  }

  lemma SettleKeepsMemory(o: Oracle, s: State, id: nat)
    requires id in s.live
    ensures var ans := o(s.calls);
      var t := Settle(o, s.(calls := s.calls + 1), Judged(s.live[id], ans), ans, VerdictOf(s.live[id], ans));
      t.live == s.live && t.pidOwner == s.pidOwner
  {
    hide Valid, Judged, VerdictOf, Save, Observe;
  }

  // ---------- the log of a run ----------

  lemma LogOfRun(o: Oracle, ss: seq<State>, ps: seq<Step>, k: nat)
    requires Run(o, ss, ps) && k < |ss|
    ensures Replay(ss[k].log).ok && ss[k].world == Replay(ss[k].log)
    ensures ss[k].newPids ==> Replay(ss[k].log).aimed
  {
    hide Valid, Inv, Run, Replay;
    RunKeepsInv(o, ss, ps, k);
    LawOfInv(ss[k]);
  }

  // ---------- signals and outputs ----------

  /** Every SIGKILL round was preceded, in the same launch and by more than a second, by a SIGTERM round. */
  lemma KillComesAfterTerm(o: Oracle, ss: seq<State>, ps: seq<Step>, k: nat, q: nat) returns (p: nat)
    requires Run(o, ss, ps) && k < |ss| && q < |ss[k].log| && ss[k].log[q].StopRound? && ss[k].log[q].sig.SIGKILL?
    ensures p < q && ss[k].log[p].StopRound? && ss[k].log[p].sig.SIGTERM? && ss[k].log[p].id == ss[k].log[q].id
    ensures NoLoopBetween(ss[k].log, p, q, ss[k].log[p].id) && ss[k].log[q].at > ss[k].log[p].at + 1000
  {
    hide Valid, Run, Replay;
    LogOfRun(o, ss, ps, k);
    p := KillFollowsTerm(ss[k].log, q);
  }

  /**
   * Of two rounds of one launch the first is SIGTERM and the second SIGKILL, so there are at most two; with
   * KillComesAfterTerm the rounds of a launch are a prefix of [SIGTERM, SIGKILL].
   */
  lemma StopSignalsInOrder(o: Oracle, ss: seq<State>, ps: seq<Step>, k: nat, p: nat, q: nat)
    requires Run(o, ss, ps) && k < |ss| && p < q < |ss[k].log|
    requires ss[k].log[p].StopRound? && ss[k].log[q].StopRound? && ss[k].log[p].id == ss[k].log[q].id
    requires NoLoopBetween(ss[k].log, p, q, ss[k].log[p].id)
    ensures ss[k].log[p].sig.SIGTERM? && ss[k].log[q].sig.SIGKILL? && ss[k].log[q].at > ss[k].log[p].at + 1000
  {
    hide Valid, Run, Replay;
    LogOfRun(o, ss, ps, k);
    StopsInOrder(ss[k].log, p, q);
  }

  /** No signal goes to a process already reaped: each goes to a child forked for that job and not yet waited for. */
  lemma SignalsHitChildren(o: Oracle, ss: seq<State>, ps: seq<Step>, k: nat, q: nat) returns (p: nat)
    requires Run(o, ss, ps) && k < |ss| && ss[k].newPids && q < |ss[k].log| && ss[k].log[q].Signalled?
    ensures p < q && ss[k].log[p] == Forked(ss[k].log[q].id, ss[k].log[q].pid)
    ensures StillUnwaited(ss[k].log, p, q, ss[k].log[q].pid)
  {
    hide Valid, Run, Replay;
    LogOfRun(o, ss, ps, k);
    p := SignalsGoToChildren(ss[k].log, q);
  }

  /** A record says completed only after the output of that launch is in place. */
  lemma CompletedFollowsOutput(o: Oracle, ss: seq<State>, ps: seq<Step>, k: nat, q: nat) returns (p: nat)
    requires Run(o, ss, ps) && k < |ss| && q < |ss[k].log| && ss[k].log[q].Saved?
    requires ss[k].log[q].meta.state.Completed? && HasText(ss[k].log[q].meta.op)
    ensures p < q && ss[k].log[p].OutputWritten? && ss[k].log[p].id == ss[k].log[q].meta.id
    ensures NoLoopBetween(ss[k].log, p, q, ss[k].log[p].id)
  {
    hide Valid, Run, Replay;
    LogOfRun(o, ss, ps, k);
    p := CompletedAfterOutput(ss[k].log, q);
  }

  /** recover kills a recorded process only if the start time seen now is the one recorded. */
  lemma LeftoversMatch(o: Oracle, ss: seq<State>, ps: seq<Step>, k: nat, q: nat)
    requires Run(o, ss, ps) && k < |ss| && q < |ss[k].log| && ss[k].log[q].LeftoverKilled?
    ensures var e := ss[k].log[q];
      && e.start != 0 && e.seen == e.start && e.id in At(ss[k].log, q).disk
      && Recorded(e.pid, e.start) in ParsedProcs(At(ss[k].log, q).disk[e.id].procs)
  {
    hide Valid, Run, Replay, At, ParsedProcs;
    LogOfRun(o, ss, ps, k);
    RuleAt(ss[k].log, q);
  }

  // ---------- shutdown ----------

  /** From a state that is shutting down, as long as the controller is not killed. */
  ghost predicate Uninterrupted(ps: seq<Step>, k: nat, m: nat) {
    k <= m <= |ps| && forall i :: k <= i < m ==> ps[i].Do?
  }

  /**
   * Once SHUTDOWN is handled the queue stays empty, no job is added or reaches the fork loop, the stop reasons of
   * the jobs that are left stay, and the processes still to be reaped never become more.
   */
  lemma {:induction false} ShutdownDrains(o: Oracle, ss: seq<State>, ps: seq<Step>, k: nat, m: nat)
    requires Run(o, ss, ps) && k <= m < |ss| && ss[k].shuttingDown && Uninterrupted(ps, k, m)
    ensures ss[m].shuttingDown && ss[m].queue == [] && Winding(ss[k], ss[m])
    ensures forall id :: id in ss[m].live ==> ss[m].live[id].stop != NoStop
    ensures Unreaped(ss[m].live) <= Unreaped(ss[k].live)
  {
    hide Valid, RunInv, Winding, Handle, Enabled, Unreaped;
    RunKeepsInv(o, ss, ps, k);
    if k == m {
      WindingSelf(ss[k], ss[k]);
    } else {
      ShutdownDrains(o, ss, ps, k, m - 1);
      RunKeepsInv(o, ss, ps, m - 1);
      assert CanStep(o, ss[m - 1], ps[m - 1]) && ps[m - 1].Do?;
      ShutdownOnlyWindsDown(o, ss[m - 1], ps[m - 1].event);
      WindingOn(ss[k], ss[m - 1], ss[m]);
    }
    RunKeepsInv(o, ss, ps, m);
    ShuttingShape(ss[m]);
    InvOfRun(ss[k]);
    UnreapedShrinks(ss[k], ss[m]);
  }

  lemma ShuttingShape(s: State)
    requires RunInv(s) && s.shuttingDown
    ensures s.queue == [] && forall id :: id in s.live ==> s.live[id].stop != NoStop
  {
    hide Valid, Core, Busy, Replay;
  }

  /** The log shows it too: between two such states there is no fork loop. */
  lemma NoLaunchAfterShutdown(o: Oracle, ss: seq<State>, ps: seq<Step>, k: nat, m: nat, p: nat)
    requires Run(o, ss, ps) && k <= m < |ss| && ss[k].shuttingDown && Uninterrupted(ps, k, m)
    requires |ss[k].log| <= p < |ss[m].log|
    ensures !ss[m].log[p].ForkLoop?
  {
    hide Valid, Run, Replay, Uninterrupted, Steady, Unreaped;
    ShutdownDrains(o, ss, ps, k, m);
    RunLogGrows(o, ss, ps, k, m);
    LogOfRun(o, ss, ps, k);
    LogOfRun(o, ss, ps, m);
    var log, n := ss[m].log, |ss[k].log|;
    AtEnd(log);
    assert At(log, n) == Replay(ss[k].log);
    LoopsGrow(log, n, |log|);
  }

  /** The loop may exit exactly when every process has been reaped, and then nothing is held any more. */
  lemma ExitMeansDrained(o: Oracle, ss: seq<State>, ps: seq<Step>, k: nat)
    requires Run(o, ss, ps) && k < |ss| && ss[k].shuttingDown
    ensures ss[k].live == map[] && ss[k].queue == [] <==> Unreaped(ss[k].live) == {}
    ensures ss[k].live == map[] ==> ss[k].slotsUsed == 0 && ss[k].pidOwner == map[]
  {
    hide Valid, RunInv, Run, Inv, Unreaped;
    RunKeepsInv(o, ss, ps, k);
    InvOfRun(ss[k]);
    IdleWhenAllReaped(ss[k]);
  }

  // ---------- stop reasons and outcomes ----------

  /** The first stop reason of a job never changes while the job is live. */
  lemma {:induction false} FirstStopReasonStays(o: Oracle, ss: seq<State>, ps: seq<Step>, k: nat, m: nat, id: nat)
    requires Run(o, ss, ps) && k <= m < |ss| && Uninterrupted(ps, k, m)
    requires forall i :: k <= i <= m ==> id in ss[i].live
    requires ss[k].live[id].stop != NoStop
    ensures ss[m].live[id].stop == ss[k].live[id].stop
  {
    hide Valid, RunInv, Handle, Enabled, Steady;
    if k < m {
      FirstStopReasonStays(o, ss, ps, k, m - 1, id);
      var s := ss[m - 1];
      RunKeepsInv(o, ss, ps, m - 1);
      assert CanStep(o, s, ps[m - 1]) && ps[m - 1].Do?;
      RunningJobsMoveOn(o, s, ps[m - 1].event);
      StoppedIsRunning(s, id);
      SteadyAt(s, ss[m], id);
    }
  }

  lemma StoppedIsRunning(s: State, id: nat)
    requires RunInv(s) && id in s.live && s.live[id].stop != NoStop
    ensures !s.live[id].meta.state.Queued?
  {
    hide Valid, Shared, OnDisk, Replay, AllReaped;
    assert JobInv(s, id);
  }

  lemma SteadyAt(s: State, t: State, id: nat)
    requires Steady(s, t) && id in s.live && id in t.live && !s.live[id].meta.state.Queued? && s.live[id].stop != NoStop
    ensures t.live[id].stop == s.live[id].stop
  {
    hide Valid, LaterProc;
  }
}
