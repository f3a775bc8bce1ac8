/** The records of whole runs: what every event leaves of them, and exactly when one of them stops being true. */
module Records {
  import opened Base
  import opened MetaCodec
  import opened Procs
  import opened Text
  import opened Validate
  import opened History
  import opened ControllerSpec
  import opened ControllerInv
  import opened ControllerKeeps
  import opened ControllerLaunch
  import opened ControllerLines
  import opened ControllerLog
  import opened ControllerRuns
  import opened Guarantees
  import opened Outcomes
  import R = Results

  // ---------- at most once, and only upwards ----------

  /** Across any number of crashes, restarts and repeated SUBMIT lines a job goes through the fork loop at most once. */
  lemma LaunchedAtMostOnce(o: Oracle, ss: seq<State>, ps: seq<Step>, k: nat, p: nat, q: nat)
    requires Run(o, ss, ps) && k < |ss| && p < |ss[k].log| && q < |ss[k].log|
    requires ss[k].log[p].ForkLoop? && ss[k].log[q] == ss[k].log[p] && ss[k].log[p].id !in ss[k].world.lost
    ensures p == q
  {
    hide Valid, Run, Replay;
    LogOfRun(o, ss, ps, k);
    LoopsOnce(ss[k].log, p, q);
  }

  /**
   * Of two saves of one record the later has no lower rank, and none follows a terminal one, unless one was lost or
   * made behind the back of the live job.
   */
  lemma RecordsOnlyRise(o: Oracle, ss: seq<State>, ps: seq<Step>, k: nat, p: nat, q: nat)
    requires Run(o, ss, ps) && k < |ss| && p < q < |ss[k].log| && ss[k].log[p].Saved? && ss[k].log[q].Saved?
    requires ss[k].log[p].meta.id == ss[k].log[q].meta.id
    requires ss[k].log[p].meta.id !in ss[k].world.lost && ss[k].log[p].meta.id !in ss[k].world.behind
    ensures Rank(ss[k].log[p].meta.state) <= Rank(ss[k].log[q].meta.state) && !Terminal(ss[k].log[p].meta.state)
  {
    hide Valid, Run, Replay, Rank, Terminal;
    LogOfRun(o, ss, ps, k);
    SavesRise(ss[k].log, p, q);
  }

  /**
   * Exactly when a terminal record is replaced, if no save of it is lost: when the record had been saved behind the
   * back of the live job before.
   */
  lemma EndsTwiceExactly(o: Oracle, ss: seq<State>, ps: seq<Step>, k: nat, id: nat)
    requires Run(o, ss, ps) && k < |ss| && id !in ss[k].world.lost
    ensures (exists q :: 0 <= q < |ss[k].log| && EndsTwice(ss[k].log, q, id))
      <==> exists p, q :: SavedAfterBehind(ss[k].log, p, q, id)
  {
    hide Valid, Run, Replay, EndsTwice;
    LogOfRun(o, ss, ps, k);
    var log := ss[k].log;
    if q :| 0 <= q < |log| && EndsTwice(log, q, id) {
      var p := EndsTwiceBehind(log, q, id);
      SavedIfEndsTwice(log, q, id);
      assert SavedAfterBehind(log, p, q, id);
    }
    if p, q :| SavedAfterBehind(log, p, q, id) {
      var r := BehindEndsTwice(log, p, q, id);
    }
  }

  ghost predicate SavedAfterBehind(log: seq<Effect>, p: int, q: int, id: nat) {
    && 0 <= p < q < |log| && log[p].SavedBehind? && log[p].meta.id == id && log[q].Saved? && log[q].meta.id == id
  }

  lemma SavedIfEndsTwice(log: seq<Effect>, q: nat, id: nat)
    requires q < |log| && EndsTwice(log, q, id)
    ensures log[q].Saved? && log[q].meta.id == id
  {
    hide Replay;
  }

  // ---------- records behind the back of a live job ----------

  /** The jobs whose record an event replaces behind their back: that of a late SUBMIT whose save works. */
  function LateSubmitBy(o: Oracle, s: State, e: Event): set<nat> {
    if e.Line? then
      match SubmitId(e.line) {
        case Some(id) => if LateSubmit(s, id) && o(s.calls + 1).wrote then {id} else {}
        case None => {}
      }
    else {}
  }

  lemma LineBehind(o: Oracle, s: State, line: string, order: seq<nat>)
    requires Inv(s)
    ensures HandleLine(o, s, line, order).world.behind == s.world.behind + LateSubmitBy(o, s, Line(line, order))
  {
    hide Valid, Core, Busy, Draining, LateSubmit, Enqueue, OnCancel, Shutdown, ParsedU64, Extends;
    HandleLineGrows(o, s, line, order);
    match SubmitId(line)
    case Some(id) =>
      SubmitIsEnqueue(o, s, line, order);
      if LateSubmit(s, id) {
        InDisk(s, id);
        RecordIsOwn(s, id);
        LateSubmitOverwrites(o, s, id);
      }
    case None =>
  }

  lemma InDisk(s: State, id: nat)
    requires LateSubmit(s, id)
    ensures id in s.world.disk
  {
  }

  lemma SubmitIsEnqueue(o: Oracle, s: State, line: string, order: seq<nat>)
    requires SubmitId(line).Some?
    ensures HandleLine(o, s, line, order) == Enqueue(o, s, SubmitId(line).value)
  {
    hide Valid, Enqueue, ParsedU64;
    assert line[1] == "SUBMIT "[1] && "SHUTDOWN"[1] == 'H';
  }

  lemma OnlyLateSubmits(o: Oracle, s: State, e: Event)
    requires RunInv(s) && Enabled(s, e)
    ensures Handle(o, s, e).world.behind == s.world.behind + LateSubmitBy(o, s, e)
  {
    hide Valid, Inv, Replay, Emit, Recover, HandleLine, NoteReap, Schedule, OnDeadline, OnTick, Extends, SubmitId,
         LateSubmit;
    match e {
      case NewRecord(m) => EmitGrows(s, Created(m));
      case Boot(ids) => RecoverGrows(o, s, ids);
      case Line(line, order) => LineBehind(o, s, line, order);
      case Reap(pid, how) => NoteReapGrows(o, s, pid, how);
      case Reschedule => ScheduleGrows(o, s);
      case Deadline(id) => OnDeadlineGrows(o, s, id);
      case Tick(order) => OnTickGrows(o, s, order);
    }
  }

  /**
   * Exactly when a record is replaced behind the back of its job: at a step that handles SUBMIT of that job during
   * shutdown, while the job is live and its record not terminal, if the save works (and if the controller is killed
   * during that step, only if the save came first).
   */
  lemma BehindExactly(o: Oracle, ss: seq<State>, ps: seq<Step>, k: nat)
    requires Run(o, ss, ps) && k < |ps|
    ensures ss[k].world.behind <= ss[k + 1].world.behind
    ensures ss[k + 1].world.behind <= ss[k].world.behind + LateSubmitBy(o, ss[k], ps[k].event)
    ensures ps[k].Do? ==> ss[k + 1].world.behind == ss[k].world.behind + LateSubmitBy(o, ss[k], ps[k].event)
  {
    hide Valid, RunInv, Handle, Enabled, LateSubmitBy, Replay;
    RunKeepsInv(o, ss, ps, k);
    RunKeepsInv(o, ss, ps, k + 1);
    var s, e := ss[k], ps[k].event;
    assert CanStep(o, s, ps[k]);
    OnlyLateSubmits(o, s, e);
    NextKeepsInv(o, s, ps[k]);
    BehindGrows(s, ss[k + 1]);
    if ps[k].Crash? {
      HandleKeeps(o, s, e);
      CutBehind(Handle(o, s, e), ss[k + 1], ps[k].cut);
    }
  }

  lemma BehindGrows(s: State, t: State)
    requires RunInv(s) && RunInv(t) && |s.log| <= |t.log| && t.log[..|s.log|] == s.log
    ensures s.world.behind <= t.world.behind
  {
    hide Valid, Inv, Replay;
    Earlier(t.log, |s.log|, |t.log|);
    AtEnd(t.log);
  }

  lemma CutBehind(t: State, u: State, cut: nat)
    requires RunInv(t) && RunInv(u) && cut <= |t.log| && u.log == t.log[..cut] + [Restarted]
    ensures u.world.behind <= t.world.behind
  {
    hide Valid, Inv, Rule, Aimed;
    Earlier(t.log, cut, |t.log|);
    AtEnd(t.log);
    assert u.log[..|u.log| - 1] == t.log[..cut];
  }

  /**
   * Exactly when the record of a live job is not what the job is: when it was replaced behind the job's back. Then it
   * says cancelled while the job runs on.
   */
  lemma RecordTrueExactly(o: Oracle, ss: seq<State>, ps: seq<Step>, k: nat, id: nat)
    requires Run(o, ss, ps) && k < |ss| && id in ss[k].live && id !in ss[k].world.lost
    ensures id in ss[k].world.disk
    ensures ss[k].world.disk[id] == ss[k].live[id].meta <==> id !in ss[k].world.behind
    ensures id in ss[k].world.behind ==> ss[k].world.disk[id].state.Cancelled? && ss[k].live[id].meta.state.Running?
  {
    hide Valid, RunInv, Inv, Run;
    RunKeepsInv(o, ss, ps, k);
    InvOfRun(ss[k]);
    RecordMatches(ss[k], id);
  }

  /** Whatever its verdict, such a job then ends twice: when it leaves, its terminal record is replaced. */
  lemma OverwrittenJobEndsTwice(o: Oracle, ss: seq<State>, ps: seq<Step>, k: nat, pid: int32, how: WaitStatus, id: nat)
    returns (q: nat)
    requires Run(o, ss, ps) && k < |ps| && ps[k] == Do(Reap(pid, how))
    requires id in ss[k].live && id !in ss[k + 1].live && id !in ss[k + 1].world.lost && id in ss[k].world.behind
    ensures |ss[k].log| <= q < |ss[k + 1].log| && EndsTwice(ss[k + 1].log, q, id)
  {
    hide Valid, RunInv, Enabled, NoteReap, Terminal, EndsTwice, Replay, Inv, Run;
    StepOf(o, ss, ps, k);
    RunKeepsInv(o, ss, ps, k);
    InvOfRun(ss[k]);
    RunLogGrows(o, ss, ps, k, k + 1);
    LogOfRun(o, ss, ps, k);
    LogOfRun(o, ss, ps, k + 1);
    ReapSaves(o, ss[k], pid, how, id);
    LostGrows(ss[k], ss[k + 1]);
    RecordMatches(ss[k], id);
    CancelledIsTerminal(ss[k].world.disk[id].state);
    q := SavedLastOverEnd(ss[k], ss[k + 1], id);
  }

  lemma LostGrows(s: State, t: State)
    requires s.world == Replay(s.log) && t.world == Replay(t.log) && |s.log| <= |t.log| && t.log[..|s.log|] == s.log
    ensures s.world.lost <= t.world.lost
  {
    hide Valid, Replay;
    Earlier(t.log, |s.log|, |t.log|);
    AtEnd(t.log);
  }

  lemma SavedLastOverEnd(s: State, t: State, id: nat) returns (q: nat)
    requires Replay(t.log).ok && s.world == Replay(s.log) && |s.log| <= |t.log| && t.log[..|s.log|] == s.log
    requires SavesLast(s, t, id) && id !in t.world.lost && id in s.world.disk && Terminal(s.world.disk[id].state)
    ensures |s.log| <= q < |t.log| && EndsTwice(t.log, q, id)
  {
    hide Valid, Terminal, EndsTwice, Replay;
    q := SavedOverEnd(t.log, |s.log|, |t.log| - 1, id);
  }

  lemma StepOf(o: Oracle, ss: seq<State>, ps: seq<Step>, k: nat)
    requires Run(o, ss, ps) && k < |ps| && ps[k].Do?
    ensures |ss| == |ps| + 1 && ss[k + 1] == Handle(o, ss[k], ps[k].event)
  {
    hide Valid, Handle, Enabled, ControllerSpec.Boot;
  }

  lemma CancelledIsTerminal(s: JobState)
    ensures s.Cancelled? ==> Terminal(s)
  {
  }

  ghost predicate SavesLast(s: State, t: State, id: nat) {
    |t.log| > |s.log| && (id !in t.world.lost ==> t.log[|t.log| - 1].Saved? && t.log[|t.log| - 1].meta.id == id)
  }

  /** The last thing the reap that ends a job does is to save its record. */
  lemma ReapSaves(o: Oracle, s: State, pid: int32, how: WaitStatus, id: nat)
    requires Inv(s) && id in s.live && id !in NoteReap(o, s, pid, how).live &&
      id !in NoteReap(o, s, pid, how).world.lost
    ensures SavesLast(s, NoteReap(o, s, pid, how), id)
  {
    hide Valid, Core, Busy, Draining, Emit, RequestStop, Finalize, AllReaped, AnyBad, Mark, Extends;
    EmitFrame(s, Waited(pid));
    EmitGrows(s, Waited(pid));
    if pid in s.pidOwner {
      var x := s.pidOwner[pid];
      MarkKeeps(s, x, pid, how);
      var u := Emit(s, Waited(pid));
      var t := u.(live := u.live[x := u.live[x].(procs := Mark(u.live[x].procs, pid, how))]);
      assert t.live.Keys == s.live.Keys;
      var v := if AnyBad(t.live[x].procs) && t.live[x].stop == NoStop then RequestStop(o, t, x, StopFailed) else t;
      if AnyBad(t.live[x].procs) && t.live[x].stop == NoStop {
        RequestStopKeeps(o, t, x, StopFailed);
        RequestStopGrows(o, t, x, StopFailed);
        NoShorter(t, v);
      }
      if AllReaped(t.live[x].procs) {
        StoppedOrSame(t, v, x);
        FinalizeSaves(o, v, x);
        NoShorter(s, u) by { EmitGrows(s, Waited(pid)); }
      }
    }
  }

  lemma NoShorter(s: State, t: State)
    requires Extends(s, t)
    ensures |s.log| <= |t.log|
  {
    hide Valid, Replay;
  }

  lemma StoppedOrSame(t: State, v: State, x: nat)
    requires x in t.live && (v == t || Stopped(t, v, x))
    ensures v.live.Keys == t.live.Keys && v.live[x].meta == t.live[x].meta
  {
    hide Valid;
  }

  lemma FinalizeSaves(o: Oracle, s: State, id: nat)
    requires Core(s) && id in s.live
    ensures var t := Finalize(o, s, id);
      t.live == s.live - {id} && SavesLast(s, t, id)
  {
    hide Valid, Core, Settle, Judged, VerdictOf, AllReaped;
    LiveIsOwn(s, id);
    var a := o(s.calls);
    var t := s.(calls := s.calls + 1);
    SettleKeepsMemory(o, s, id);
    JudgedState(s.live[id], a);
    SettleSaves(o, t, Judged(s.live[id], a), a, VerdictOf(s.live[id], a));
  }

  lemma SettleSaves(o: Oracle, s: State, m: Meta, a: Answer, v: R.Verdict)
    ensures SavesLast(s, Settle(o, s, m, a, v), m.id)
  {
    hide Valid, Save, Observe;
    if v.Good? && v.body != "" {
      var p := m.(state := Persisting);
      var t := Save(o, s, p);
      SaveIsLast(o, s, p);
      SaveIsLast(o, Emit(t, OutputWritten(m.id, v.body)), m);
      SaveIsLast(o, t, m.(state := Failed, error := a.text));
    } else {
      SaveIsLast(o, s, m);
    }
  }

  lemma SaveIsLast(o: Oracle, s: State, m: Meta)
    ensures SavesLast(s, Save(o, s, m), m.id)
  {
    hide Valid, Rule, Aimed;
  }

  /** Exactly when one SUBMIT makes a record lie about a live job: when it names a live job during shutdown. */
  lemma SubmitKeepsRecordsTrue(o: Oracle, s: State, id: nat)
    requires Inv(s) && s.booted && s.live.Keys !! s.world.behind
    requires forall x :: x in Enqueue(o, s, id).live ==> x !in Enqueue(o, s, id).world.lost
    ensures var t := Enqueue(o, s, id);
      (forall x :: x in t.live ==> x in t.world.disk && t.world.disk[x] == t.live[x].meta)
      <==> !(s.shuttingDown && id in s.live)
  {
    hide Valid, Core, Busy, Draining, Enqueue, LateSubmit, Extends;
    var t := Enqueue(o, s, id);
    EnqueueKeeps(o, s, id);
    EnqueueGrows(o, s, id);
    if s.shuttingDown && id in s.live {
      ShuttingAddsNothing(o, s, id);
      LiveIsLate(o, s, id);
      RecordMatches(t, id);
    } else {
      assert !LateSubmit(s, id) by { NotLate(s, id); }
      LostStays(s, t, id);
      forall x | x in t.live ensures x in t.world.disk && t.world.disk[x] == t.live[x].meta {
        if x !in s.live {
          SubmittedIsNotBehind(o, s, x);
        }
        RecordMatches(t, x);
      }
    }
  }

  lemma LiveIsLate(o: Oracle, s: State, id: nat)
    requires Inv(s) && s.booted && s.shuttingDown && id in s.live && id !in s.world.behind
    requires id !in Enqueue(o, s, id).world.lost
    ensures id in Enqueue(o, s, id).world.behind
  {
    hide Valid, Core, Busy, Enqueue, Terminal;
    EnqueueKeeps(o, s, id);
    LostStays(s, Enqueue(o, s, id), id);
    RecordMatches(s, id);
    NoQueueMeansRunning(s, id);
    RunningNotTerminal(s.live[id].meta.state);
    RecordIsOwn(s, id);
    LateSubmitOverwrites(o, s, id);
  }

  lemma ShuttingAddsNothing(o: Oracle, s: State, id: nat)
    requires s.shuttingDown
    ensures Enqueue(o, s, id).live == s.live
  {
    hide Valid, Problem, Save, Schedule, Terminal, Observe;
  }

  lemma RunningNotTerminal(s: JobState)
    ensures s.Running? ==> !Terminal(s)
  {
  }

  lemma LostStays(s: State, t: State, id: nat)
    requires CarriedBut(s, t, id)
    ensures s.world.lost <= t.world.lost && t.live.Keys <= s.live.Keys + {id}
  {
    hide Valid, Terminal;
  }

  lemma SubmittedIsNotBehind(o: Oracle, s: State, id: nat)
    requires Inv(s) && s.booted && id !in s.live && id in Enqueue(o, s, id).live && id !in s.world.lost
    ensures id !in s.world.behind
  {
    hide Valid, Core, Busy, Draining, Problem, Save, SaveBehind, Schedule, Terminal;
    RecordOf(s, id);
    AdmitKeeps(o, s, id);
  }

  lemma NotLate(s: State, id: nat)
    requires !(s.shuttingDown && id in s.live)
    ensures !LateSubmit(s, id)
  {
  }

  // ---------- cancel before submit ----------

  /** A CANCEL that overtakes its SUBMIT: the record is cancelled, and the SUBMIT that follows changes nothing. */
  lemma CancelOvertakesSubmit(o: Oracle, s: State, id: nat)
    requires Inv(s) && id !in s.live && id in s.world.disk && id !in OnCancel(o, s, id).world.lost
    ensures var t := OnCancel(o, s, id);
      && id !in t.live && id in t.world.disk && Terminal(t.world.disk[id].state)
      && (!Terminal(s.world.disk[id].state) ==> t.world.disk[id].state.Cancelled?)
      && Enqueue(o, t, id) == t
  {
    hide Valid, Core, Busy, Draining, Save, Schedule, Problem;
    RecordIsOwn(s, id);
    var m := s.world.disk[id].(state := Cancelled, error := "cancelled", finishedMs := o(s.calls).realtime);
    SaveSaves(o, s.(calls := s.calls + 1), m);
  }

  /** A CANCEL of a live job takes effect: a queued one is gone, its record cancelled; a running one is stopped. */
  lemma CancelTakesEffect(o: Oracle, s: State, id: nat)
    requires Inv(s) && id in s.live
    ensures var t := OnCancel(o, s, id);
      if s.live[id].meta.state.Queued? then
        && t.live == s.live - {id} && id !in t.queue
        && (id !in t.world.lost ==> id in t.world.disk && t.world.disk[id].state.Cancelled?)
      else
        && id in t.live && t.live[id].stop == (if s.live[id].stop == NoStop then StopCancelled else s.live[id].stop)
  {
    hide Valid, Core, Busy, Draining, Save, RequestStop;
    MetaOfJob(s, id);
    if s.live[id].meta.state.Queued? {
      var m := s.live[id].meta.(state := Cancelled, error := "cancelled before start",
        finishedMs := o(s.calls).realtime);
      SaveSaves(o, s.(calls := s.calls + 1), m);
    } else {
      LiveJobRuns(s, id);
      RequestStopKeeps(o, s, id, StopCancelled);
    }
  }

  /** SHUTDOWN cancels the whole queue: no queued job is left, and the record of each says cancelled. */
  lemma {:induction false} ShutdownCancelsTheQueue(o: Oracle, s: State, ids: seq<nat>)
    requires Core(s) && Busy(s) && Distinct(ids) && forall x :: x in ids ==> x in s.queue
    ensures var t := CancelAll(o, s, ids);
      forall x :: x in ids && x !in t.world.lost ==> x in t.world.disk && t.world.disk[x].state.Cancelled?
  {
    hide Valid, OnCancel, Core, Busy;
    if ids != [] {
      var front, id := ids[..|ids| - 1], ids[|ids| - 1];
      assert ids == front + [id];
      ShutdownCancelsTheQueue(o, s, front);
      CancelAllKeeps(o, s, front);
      var t := CancelAll(o, s, front);
      InQueueIsLive(t, id);
      QueuedIsCancelled(o, t, id);
    }
  }

  lemma QueuedIsCancelled(o: Oracle, s: State, id: nat)
    requires Core(s) && id in s.live && s.live[id].meta.state.Queued?
    ensures var t, w := OnCancel(o, s, id).world, s.world;
      && w.lost <= t.lost && (id !in t.lost ==> id in t.disk && t.disk[id].state.Cancelled?)
      && forall x :: x in w.disk && x != id ==> x in t.disk && t.disk[x] == w.disk[x]
  {
    hide Valid, Core, Save;
    MetaOfJob(s, id);
    var m := s.live[id].meta.(state := Cancelled, error := "cancelled before start", finishedMs := o(s.calls).realtime);
    SaveSaves(o, s.(calls := s.calls + 1), m);
  }
}
