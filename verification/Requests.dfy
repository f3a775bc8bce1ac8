/**
 * What each request does to the job it names, over runs: the control lines, the deadline, the end of a process and
 * the tick, told by what is in memory and on disk before and after.
 */
module Requests {
  import opened Base
  import opened MetaCodec
  import opened Procs
  import opened Text
  import opened Validate
  import opened History
  import opened ControllerSpec
  import opened ControllerInv
  import opened ControllerKeeps
  import opened ControllerLines
  import opened ControllerLog
  import opened ControllerRuns
  import opened Guarantees
  import opened Handlers
  import opened Outcomes
  import opened Records

  // ---------- lines as texts ----------

  /** The text is a number that fits 64 bits, with or without leading zeros; the client writes it without. */
  predicate Denotes(text: string, id: uint64) {
    text != "" && AllDigits(text) && ValueOf(text) == id
  }

  lemma DecDenotes(id: uint64)
    ensures Denotes(Dec(id), id)
  {
    DecIsDigits(id);
  }

  lemma ParsedDenotes(text: string)
    ensures ParsedU64(text).Some? ==> Denotes(text, ParsedU64(text).value)
  {
  }

  lemma CancelIsOnCancel(o: Oracle, s: State, text: string, id: uint64, order: seq<nat>)
    requires Denotes(text, id)
    ensures HandleLine(o, s, "CANCEL " + text, order) == OnCancel(o, s, id)
  {
    hide Valid, OnCancel, Enqueue, Shutdown;
    var line := "CANCEL " + text;
    assert line[0] == 'C' && "SHUTDOWN"[0] == 'S' && "SUBMIT "[0] == 'S';
    assert line[..7] == "CANCEL " && line[7..] == text;
  }

  lemma SubmitIsSubmit(o: Oracle, s: State, text: string, id: uint64, order: seq<nat>)
    requires Denotes(text, id)
    ensures HandleLine(o, s, "SUBMIT " + text, order) == Enqueue(o, s, id)
  {
    hide Valid, OnCancel, Enqueue, Shutdown;
    var line := "SUBMIT " + text;
    assert line[1] == 'U' && "SHUTDOWN"[1] == 'H';
    assert line[..7] == "SUBMIT " && line[7..] == text;
  }

  /** The state before and after a step that is not a crash. */
  lemma StepRuns(o: Oracle, ss: seq<State>, ps: seq<Step>, k: nat)
    requires Run(o, ss, ps) && k < |ps| && ps[k].Do?
    ensures |ss| == |ps| + 1 && Inv(ss[k]) && RunInv(ss[k]) && Enabled(ss[k], ps[k].event)
    ensures ss[k + 1] == Handle(o, ss[k], ps[k].event)
  {
    hide Valid, Run, RunInv, Inv;
    StepOf(o, ss, ps, k);
    RunKeepsInv(o, ss, ps, k);
    InvOfRun(ss[k]);
    StepEnabled(o, ss, ps, k);
  }

  lemma StepEnabled(o: Oracle, ss: seq<State>, ps: seq<Step>, k: nat)
    requires Run(o, ss, ps) && k < |ps|
    ensures |ss| == |ps| + 1 && Enabled(ss[k], ps[k].event)
  {
    hide Valid, Enabled, Handle, ControllerSpec.Boot;
    assert CanStep(o, ss[k], ps[k]);
  }

  // ---------- CANCEL ----------

  /** What a CANCEL of `id` leaves. */
  ghost predicate Cancels(s: State, t: State, id: nat) {
    if id in s.live && !s.live[id].meta.state.Queued? then
      id in t.live && t.live[id].stop == (if s.live[id].stop == NoStop then StopCancelled else s.live[id].stop)
    else
      && id !in t.live && id !in t.queue
      && (id in s.world.disk && id !in t.world.lost ==>
            && id in t.world.disk && Terminal(t.world.disk[id].state)
            && (!Terminal(s.world.disk[id].state) || id in s.live ==> t.world.disk[id].state.Cancelled?))
  }

  /**
   * A CANCEL line takes effect at once: a job that is queued or not live is not live afterwards and its record is
   * terminal, cancelled unless it was over before; a running job has a stop reason, cancelled unless it had one.
   */
  lemma CancelLineTakesEffect(o: Oracle, ss: seq<State>, ps: seq<Step>, k: nat, text: string, id: uint64,
                              order: seq<nat>)
    requires Run(o, ss, ps) && k < |ps| && Denotes(text, id) && ps[k] == Do(Line("CANCEL " + text, order))
    ensures Cancels(ss[k], ss[k + 1], id)
  {
    hide Valid, Run, RunInv, Inv, Enabled, HandleLine, OnCancel, Denotes, Cancels;
    StepRuns(o, ss, ps, k);
    CancelIsOnCancel(o, ss[k], text, id, order);
    OnCancelCancels(o, ss[k], id);
  }

  lemma OnCancelCancels(o: Oracle, s: State, id: nat)
    requires Inv(s)
    ensures Cancels(s, OnCancel(o, s, id), id)
  {
    hide Valid, Inv, OnCancel, Terminal;
    if id in s.live {
      CancelTakesEffect(o, s, id);
      CancelledStates();
    } else {
      NotInQueue(s, id);
      if id in s.world.disk {
        CancelWhenNotLive(o, s, id);
      } else {
        NothingToCancel(o, s, id);
      }
    }
  }

  lemma CancelledStates()
    ensures forall s: JobState :: s.Cancelled? ==> Terminal(s)
  {
  }

  lemma NotInQueue(s: State, id: nat)
    requires Inv(s) && id !in s.live
    ensures id !in s.queue
  {
    hide Valid, JobInv, WorldInv, SlotsExact, OwnersLive, OthersAtRest, Busy, Draining;
  }

  lemma NothingToCancel(o: Oracle, s: State, id: nat)
    requires id !in s.live && id !in s.world.disk
    ensures OnCancel(o, s, id) == s
  {
  }

  lemma CancelWhenNotLive(o: Oracle, s: State, id: nat)
    requires Inv(s) && id !in s.live && id in s.world.disk
    ensures var t := OnCancel(o, s, id);
      && t.live == s.live && t.queue == s.queue
      && (id !in t.world.lost ==>
            && id in t.world.disk && Terminal(t.world.disk[id].state)
            && (!Terminal(s.world.disk[id].state) ==> t.world.disk[id].state.Cancelled?))
  {
    hide Valid, Core, Busy, Draining, Save;
    RecordIsOwn(s, id);
    var m := s.world.disk[id].(state := Cancelled, error := "cancelled", finishedMs := o(s.calls).realtime);
    SaveSaves(o, s.(calls := s.calls + 1), m);
  }

  // ---------- SUBMIT ----------

  /** The log of a step that begins at `n` has a save of `id` in this state. */
  ghost predicate SavedAs(log: seq<Effect>, n: nat, id: nat, state: JobState) {
    exists p :: n <= p < |log| && (log[p].Saved? || log[p].SaveLost?) && log[p].meta.id == id
      && log[p].meta.state == state
  }

  /** What a SUBMIT of `id` leaves. */
  ghost predicate Submits(s: State, t: State, id: nat) {
    if id !in s.world.disk || Terminal(s.world.disk[id].state) || (id in s.live && !s.shuttingDown) then t == s
    else if s.shuttingDown then
      t.live == s.live && (id !in t.world.lost ==> id in t.world.disk && t.world.disk[id].state.Cancelled?)
    else if Valid(s.world.disk[id]) then
      && SavedAs(t.log, |s.log|, id, Queued) && (id in t.live || Over(t.world, id))
      && (s.slotsUsed == s.slotsMax ==> id in t.live && id in t.queue)
      && (t.slotsUsed == t.slotsMax || t.queue == [])
    else
      && t.live == s.live
      && (id !in t.world.lost ==>
            && id in t.world.disk && t.world.disk[id].state.Failed?
            && Some(t.world.disk[id].error) == Problem(s.world.disk[id]))
  }

  /**
   * A SUBMIT line takes effect at once. A valid record that waits is saved as queued, and its job is live or has had
   * its launch fail; with no slot free it is in the queue, and with one free nothing is. An invalid one has failed for
   * its reason. During shutdown the record says cancelled. A job that is live or over, or has no record, is left alone.
   */
  lemma SubmitLineTakesEffect(o: Oracle, ss: seq<State>, ps: seq<Step>, k: nat, text: string, id: uint64,
                              order: seq<nat>)
    requires Run(o, ss, ps) && k < |ps| && Denotes(text, id) && ps[k] == Do(Line("SUBMIT " + text, order))
    ensures Submits(ss[k], ss[k + 1], id)
  {
    hide Valid, Run, RunInv, Inv, HandleLine, Enqueue, Denotes, Submits;
    StepRuns(o, ss, ps, k);
    SubmitIsSubmit(o, ss[k], text, id, order);
    EnqueueSubmits(o, ss[k], id);
  }

  lemma EnqueueSubmits(o: Oracle, s: State, id: nat)
    requires Inv(s) && s.booted
    ensures Submits(s, Enqueue(o, s, id), id)
  {
    hide Core, Busy, Draining, Save, SaveBehind, Schedule, Problem, Terminal, Over, SavedAs;
    if id in s.world.disk && !Terminal(s.world.disk[id].state) {
      var m := s.world.disk[id];
      InvalidHasProblem(m);
      RecordIsOwn(s, id);
      if s.shuttingDown {
        ClosedBySubmit(o, s, m.(state := Cancelled, error := "controller is shutting down",
                                finishedMs := o(s.calls).realtime));
      } else if id !in s.live {
        if Valid(m) {
          AdmittedBySubmit(o, s, id);
        } else {
          ClosedBySubmit(o, s, m.(state := Failed, error := Problem(m).value, finishedMs := o(s.calls).realtime));
        }
      }
    }
  }

  lemma ClosedBySubmit(o: Oracle, s: State, m: Meta)
    ensures var t := s.(calls := s.calls + 1);
      && (m.id !in Save(o, t, m).world.lost ==> m.id in Save(o, t, m).world.disk && Save(o, t, m).world.disk[m.id] == m)
      && (m.id !in SaveBehind(o, t, m).world.lost ==>
            m.id in SaveBehind(o, t, m).world.disk && SaveBehind(o, t, m).world.disk[m.id] == m)
      && Save(o, t, m).live == s.live && SaveBehind(o, t, m).live == s.live
  {
    hide Valid, Rule, Aimed;
  }

  lemma AdmittedBySubmit(o: Oracle, s: State, id: nat)
    requires Inv(s) && s.booted && !s.shuttingDown && id !in s.live && id in s.world.disk
    requires Valid(s.world.disk[id]) && !Terminal(s.world.disk[id].state)
    ensures var t := Enqueue(o, s, id);
      && SavedAs(t.log, |s.log|, id, Queued) && (id in t.live || Over(t.world, id))
      && (s.slotsUsed == s.slotsMax ==> id in t.live && id in t.queue)
      && (t.slotsUsed == t.slotsMax || t.queue == [])
  {
    EnqueueKeeps(o, s, id);
    RecordIsOwn(s, id);
    WaitingRecord(s, id);
    AdmitKeeps(o, s, id);
    StaysValid(s.world.disk[id], s.world.disk[id].(state := Queued));
    hide Valid, Problem, Core, Busy, Draining, Over, Terminal, CarriedBut, Save, Extends;
    var m: GoodMeta := s.world.disk[id].(state := Queued);
    var u := Save(o, s, m);
    var v := u.(queue := s.queue + [id], live := s.live[id := NewJob(m)]);
    SaveIsLogged(o, s, m);
    ScheduleGrows(o, v);
    ScheduleKeeps(o, v);
    LogKept(v, Schedule(o, v), |s.log|);
    assert Enqueue(o, s, id) == Schedule(o, v);
  }

  lemma WaitingRecord(s: State, id: nat)
    requires Inv(s) && s.booted && id !in s.live && id in s.world.disk && !Terminal(s.world.disk[id].state)
    ensures id !in s.world.lost ==> s.world.disk[id].state in {Submitted, Queued}
  {
    hide Valid, Core, Busy, Draining, Terminal;
    RecordOf(s, id);
  }

  lemma SaveIsLogged(o: Oracle, s: State, m: Meta)
    ensures var t := Save(o, s, m); |t.log| == |s.log| + 1 && t.log[|s.log|] in {Saved(m), SaveLost(m)}
  {
    hide Valid, Observe;
  }

  lemma LogKept(s: State, t: State, p: nat)
    requires Extends(s, t) && p < |s.log|
    ensures p < |t.log| && t.log[p] == s.log[p]
  {
    hide Valid, Replay;
    assert t.log[..|s.log|][p] == t.log[p];
  }

  // ---------- SHUTDOWN ----------

  /** What SHUTDOWN leaves. */
  ghost predicate ShutsDown(s: State, t: State) {
    && t.shuttingDown && t.queue == []
    && (forall id :: id in s.live && !s.live[id].meta.state.Queued? ==>
          && id in t.live
          && t.live[id].stop == (if s.live[id].stop == NoStop then StopShutdown else s.live[id].stop))
    && (forall id :: id in s.live && s.live[id].meta.state.Queued? ==>
          id !in t.live && (id !in t.world.lost ==> id in t.world.disk && t.world.disk[id].state.Cancelled?))
  }

  /**
   * A SHUTDOWN line takes effect at once: nothing is queued, the record of every job that was says cancelled, and every
   * running job has been told to stop, for the shutdown unless it had a reason before.
   */
  lemma ShutdownLineTakesEffect(o: Oracle, ss: seq<State>, ps: seq<Step>, k: nat, order: seq<nat>)
    requires Run(o, ss, ps) && k < |ps| && ps[k] == Do(Line("SHUTDOWN", order))
    ensures ShutsDown(ss[k], ss[k + 1])
  {
    hide Valid, Run, RunInv, Inv, HandleLine, ShutsDown, Shutdown;
    StepRuns(o, ss, ps, k);
    ShutdownIsLine(o, ss[k], order);
    ShutdownShutsDown(o, ss[k], order);
  }

  lemma ShutdownShutsDown(o: Oracle, s: State, order: seq<nat>)
    requires Inv(s) && forall x :: x in s.live ==> x in order
    ensures ShutsDown(s, Shutdown(o, s, order))
  {
    hide Valid, Core, Busy, CancelAll, StopAll, Carried;
    ShutdownKeeps(o, s, order);
    var s1 := s.(shuttingDown := true);
    BeginShutdown(s);
    QueueIsDistinct(s);
    CancelAllKeeps(o, s1, s.queue);
    CancelAllLive(o, s1, s.queue);
    ShutdownCancelsTheQueue(o, s1, s.queue);
    var t := CancelAll(o, s1, s.queue);
    EmptyQueue(t);
    StopAllReasons(o, t, order);
    CarriedIsShutting(s1, Shutdown(o, s, order));
    QueueIsQueued(s);
  }

  lemma CarriedIsShutting(s: State, t: State)
    requires Carried(s, t)
    ensures t.shuttingDown == s.shuttingDown
  {
    hide Valid, Over;
  }

  lemma QueueIsQueued(s: State)
    requires Inv(s)
    ensures forall id :: id in s.queue <==> id in s.live && s.live[id].meta.state.Queued?
  {
    hide Valid, Core, Busy, Draining;
    InvShape(s);
  }

  lemma {:induction false} CancelAllLive(o: Oracle, s: State, ids: seq<nat>)
    requires Core(s) && Busy(s) && Distinct(ids) && forall x :: x in ids ==> x in s.queue
    ensures var t := CancelAll(o, s, ids);
      forall x :: x in s.live && x !in ids ==> x in t.live && t.live[x] == s.live[x]
  {
    hide Valid, OnCancel, Core, Busy, Carried;
    if ids != [] {
      var front, id := ids[..|ids| - 1], ids[|ids| - 1];
      assert ids == front + [id];
      CancelAllLive(o, s, front);
      CancelAllKeeps(o, s, front);
      CancelOne(o, s, CancelAll(o, s, front), id);
    }
  }

  lemma {:induction false} StopAllReasons(o: Oracle, s: State, ids: seq<nat>)
    requires Core(s) && Busy(s) && s.queue == []
    ensures var t := StopAll(o, s, ids);
      && t.queue == [] && t.live.Keys == s.live.Keys && t.world.disk == s.world.disk && t.world.lost == s.world.lost
      && forall x :: x in t.live ==>
           t.live[x].stop == if x in ids && s.live[x].stop == NoStop then StopShutdown else s.live[x].stop
  {
    hide Valid, RequestStop, Core, Busy, Carried;
    if ids != [] {
      var front, id := ids[..|ids| - 1], ids[|ids| - 1];
      assert ids == front + [id];
      StopAllReasons(o, s, front);
      StopAllKeeps(o, s, front);
      var t := StopAll(o, s, front);
      if id in t.live {
        NoQueueMeansRunning(t, id);
        RequestStopKeeps(o, t, id, StopShutdown);
        StoppedOnly(t, RequestStop(o, t, id, StopShutdown), id);
      }
    }
  }

  lemma StoppedOnly(s: State, t: State, id: nat)
    requires id in s.live && Stopped(s, t, id)
    ensures t.queue == s.queue && t.live.Keys == s.live.Keys
    ensures t.world.disk == s.world.disk && t.world.lost == s.world.lost
    ensures forall x :: x in s.live && x != id ==> t.live[x] == s.live[x]
    ensures t.live[id].meta == s.live[id].meta && t.live[id].procs == s.live[id].procs
  {
    hide Valid;
  }

  /** Any other line does nothing. */
  lemma OtherLinesDoNothing(o: Oracle, s: State, line: string, order: seq<nat>)
    requires line != "SHUTDOWN"
    requires !exists text, id: uint64 :: Denotes(text, id) && (line == "SUBMIT " + text || line == "CANCEL " + text)
    ensures HandleLine(o, s, line, order) == s
  {
    hide Valid, Enqueue, OnCancel, Shutdown;
    if "SUBMIT " <= line || "CANCEL " <= line {
      var text := line[7..];
      assert line == "SUBMIT " + text || line == "CANCEL " + text;
      ParsedDenotes(text);
    }
  }

  // ---------- the deadline ----------

  /** A deadline is the stop reason "timed out" of a running job that had none; the job ends so unless it succeeds. */
  lemma DeadlineTimesOut(o: Oracle, ss: seq<State>, ps: seq<Step>, k: nat, id: nat)
    requires Run(o, ss, ps) && k < |ps| && ps[k] == Do(Deadline(id)) && id in ss[k].live
    ensures id in ss[k + 1].live
    ensures var was, now := ss[k].live[id], ss[k + 1].live[id];
      now.stop == if was.deadline && was.stop == NoStop then StopTimedOut else was.stop
  {
    hide Valid, Run, RunInv, Inv, RequestStop;
    StepRuns(o, ss, ps, k);
    DeadlineStops(o, ss[k], id);
  }

  lemma DeadlineStops(o: Oracle, s: State, id: nat)
    requires Inv(s) && id in s.live
    ensures var t := OnDeadline(o, s, id);
      && id in t.live
      && t.live[id].stop == if s.live[id].deadline && s.live[id].stop == NoStop then StopTimedOut else s.live[id].stop
  {
    hide Valid, Core, Busy, Draining, RequestStop;
    if s.live[id].deadline {
      DeadlineRuns(s, id);
      RequestStopKeeps(o, s, id, StopTimedOut);
      StoppedOnly(s, RequestStop(o, s, id, StopTimedOut), id);
    }
  }

  // ---------- the end of a process ----------

  /** A process of `ps` was reaped and did not exit 0. */
  predicate SomeWentWrong(ps: seq<ProcRef>) {
    exists i :: 0 <= i < |ps| && ps[i].reaped && ps[i].how != Exited(0)
  }

  /** What the reap of `pid` leaves of the job `id` that owns it. */
  ghost predicate Reaps(s: State, t: State, pid: int32, how: WaitStatus, id: nat)
    requires id in s.live
  {
    var was := s.live[id].procs;
    if forall i :: 0 <= i < |was| ==> was[i].reaped || was[i].pid == pid then id !in t.live
    else
      && id in t.live && |t.live[id].procs| == |was|
      && (forall i :: 0 <= i < |was| ==>
            t.live[id].procs[i] == if was[i].pid == pid then was[i].(reaped := true, how := how) else was[i])
      && t.live[id].stop == (if s.live[id].stop == NoStop && SomeWentWrong(t.live[id].procs) then StopFailed
                             else s.live[id].stop)
  }

  /**
   * A reap marks the process in the job that owns it, and the job leaves exactly when no other process of it is left;
   * one that did not exit 0 is the stop reason "failed" of a job that had none. No other job changes.
   */
  lemma ReapTakesEffect(o: Oracle, ss: seq<State>, ps: seq<Step>, k: nat, pid: int32, how: WaitStatus)
    requires Run(o, ss, ps) && k < |ps| && ps[k] == Do(Reap(pid, how))
    ensures pid in ss[k].pidOwner ==>
      ss[k].pidOwner[pid] in ss[k].live && Reaps(ss[k], ss[k + 1], pid, how, ss[k].pidOwner[pid])
    ensures forall x :: x in ss[k].live && !(pid in ss[k].pidOwner && ss[k].pidOwner[pid] == x) ==>
      x in ss[k + 1].live && ss[k + 1].live[x] == ss[k].live[x]
  {
    hide Valid, Run, RunInv, Inv, NoteReap, Reaps;
    StepRuns(o, ss, ps, k);
    NoteReapReaps(o, ss[k], pid, how);
  }

  lemma NoteReapReaps(o: Oracle, s: State, pid: int32, how: WaitStatus)
    requires Inv(s)
    ensures var t := NoteReap(o, s, pid, how);
      && (pid in s.pidOwner ==> s.pidOwner[pid] in s.live && Reaps(s, t, pid, how, s.pidOwner[pid]))
      && forall x :: x in s.live && !(pid in s.pidOwner && s.pidOwner[pid] == x) ==>
           x in t.live && t.live[x] == s.live[x]
  {
    hide Valid, Core, Busy, Draining, Emit, RequestStop, Finalize, AllReaped, AnyBad, Mark, Reaps, Marked;
    EmitFrame(s, Waited(pid));
    if pid in s.pidOwner {
      var id := s.pidOwner[pid];
      MarkKeeps(s, id, pid, how);
      var u := Emit(s, Waited(pid));
      var t := u.(live := u.live[id := u.live[id].(procs := Mark(u.live[id].procs, pid, how))]);
      assert u.live == s.live;
      assert forall x :: x in s.live && x != id ==> x in t.live && t.live[x] == s.live[x];
      AfterMark(o, t, id);
      MarkedReaps(s, t, NoteReap(o, s, pid, how), pid, how, id);
    }
  }

  /** What note_reap does after the marking. */
  lemma AfterMark(o: Oracle, t: State, id: nat)
    requires Core(t) && id in t.live && t.live[id].meta.state.Running?
    ensures var ps := t.live[id].procs;
      var u := if AnyBad(ps) && t.live[id].stop == NoStop then RequestStop(o, t, id, StopFailed) else t;
      var v := if AllReaped(ps) then Finalize(o, u, id) else u;
      && (forall x :: x in t.live && x != id ==> x in v.live && v.live[x] == t.live[x])
      && (if AllReaped(ps) then id !in v.live
          else id in v.live && v.live[id].procs == ps
               && v.live[id].stop == if AnyBad(ps) && t.live[id].stop == NoStop then StopFailed else t.live[id].stop)
  {
    hide Valid, Core, RequestStop, Finalize, AllReaped, AnyBad;
    var ps := t.live[id].procs;
    var u := if AnyBad(ps) && t.live[id].stop == NoStop then RequestStop(o, t, id, StopFailed) else t;
    if AnyBad(ps) && t.live[id].stop == NoStop {
      RequestStopKeeps(o, t, id, StopFailed);
      StoppedOnly(t, u, id);
    }
    if AllReaped(ps) {
      FinalizeKeeps(o, u, id);
      EndedLive(u, Finalize(o, u, id), id);
    }
  }

  lemma MarkedReaps(s: State, t: State, v: State, pid: int32, how: WaitStatus, id: nat)
    requires id in s.live && id in t.live && t.live[id] == s.live[id].(procs := Mark(s.live[id].procs, pid, how))
    requires var ps := t.live[id].procs;
      if AllReaped(ps) then id !in v.live
      else id in v.live && v.live[id].procs == ps
           && v.live[id].stop == if AnyBad(ps) && t.live[id].stop == NoStop then StopFailed else t.live[id].stop
    ensures Reaps(s, v, pid, how, id)
  {
    hide Valid;
    var was, ps := s.live[id].procs, t.live[id].procs;
    assert AllReaped(ps) <==> forall i :: 0 <= i < |was| ==> was[i].reaped || was[i].pid == pid;
  }
}
