/**
 * Signals arrive: every round of stop signals on the log of a run reaches every process the job has at that point,
 * and a job that is told to stop gets its round in that step. What is sent is read off the log.
 */
module Delivery {
  import opened Base
  import opened MetaCodec
  import opened Procs
  import opened Text
  import opened Validate
  import opened History
  import opened ControllerSpec
  import opened ControllerInv
  import opened ControllerKeeps
  import opened ControllerLines
  import opened ControllerRuns
  import opened ControllerProgress
  import opened CalmLogs
  import opened Requests

  /** After position `p` of the log this signal is sent to this process. */
  ghost predicate SentAfter(log: seq<Effect>, p: nat, id: nat, pid: int32, sig: Signo) {
    exists q :: p < q < |log| && log[q] == Signalled(id, pid, sig)
  }

  /** Each of these processes that can be signalled is. */
  ghost predicate AllSent(log: seq<Effect>, p: nat, id: nat, ps: seq<ProcRef>, sig: Signo) {
    forall i :: 0 <= i < |ps| && ps[i].pid > 0 && !ps[i].reaped ==> SentAfter(log, p, id, ps[i].pid, sig)
  }

  /** The round at `p` reached every process that `live` has for its job. */
  ghost predicate Reached(live: map<nat, LiveJob>, log: seq<Effect>, p: nat)
    requires p < |log| && log[p].StopRound?
  {
    log[p].id in live && AllSent(log, p, log[p].id, live[log[p].id].procs, log[p].sig)
  }

  /** So did every round from `n` on. */
  ghost predicate Served(live: map<nat, LiveJob>, log: seq<Effect>, n: nat) {
    n <= |log| && forall p :: n <= p < |log| && log[p].StopRound? ==> Reached(live, log, p)
  }

  /** The live jobs are among those of `live`, with the same processes. */
  ghost predicate Held(live: map<nat, LiveJob>, t: State) {
    forall x :: x in t.live ==> x in live && t.live[x].procs == live[x].procs
  }

  // ---------- effects that are not rounds ----------

  lemma SentLater(log: seq<Effect>, more: seq<Effect>, p: nat, id: nat, ps: seq<ProcRef>, sig: Signo)
    requires log <= more && AllSent(log, p, id, ps, sig)
    ensures AllSent(more, p, id, ps, sig)
  {
    forall i | 0 <= i < |ps| && ps[i].pid > 0 && !ps[i].reaped
      ensures SentAfter(more, p, id, ps[i].pid, sig)
    {
      var q :| p < q < |log| && log[q] == Signalled(id, ps[i].pid, sig);
      assert more[q] == log[q];
    }
  }

  lemma EmitServes(live: map<nat, LiveJob>, n: nat, s: State, e: Effect)
    requires Served(live, s.log, n) && !e.StopRound?
    ensures Served(live, Emit(s, e).log, n)
  {
    hide Valid, Observe, AllSent;
    var log := s.log + [e];
    forall p | n <= p < |log| && log[p].StopRound? ensures Reached(live, log, p) {
      assert log[p] == s.log[p];
      SentLater(s.log, log, p, log[p].id, live[log[p].id].procs, log[p].sig);
    }
  }

  lemma CalmServes(live: map<nat, LiveJob>, n: nat, base: seq<Effect>, log: seq<Effect>)
    requires Served(live, base, n) && Calm(base, log)
    ensures Served(live, log, n)
  {
    hide Valid, AllSent;
    forall p | n <= p < |log| && log[p].StopRound? ensures Reached(live, log, p) {
      assert p < |base| && log[p] == base[p];
      SentLater(base, log, p, log[p].id, live[log[p].id].procs, log[p].sig);
    }
  }

  lemma SaveServes(o: Oracle, live: map<nat, LiveJob>, n: nat, s: State, m: Meta)
    requires Served(live, s.log, n)
    ensures Served(live, Save(o, s, m).log, n)
  {
    hide Valid, Save, Served, Calm;
    CalmSelf(s.log);
    SaveCalm(o, s.log, s, m);
    CalmServes(live, n, s.log, Save(o, s, m).log);
  }

  lemma ScheduleServes(o: Oracle, live: map<nat, LiveJob>, n: nat, s: State)
    requires Served(live, s.log, n)
    ensures Served(live, Schedule(o, s).log, n)
  {
    hide Valid, Schedule, Served, Calm;
    CalmSelf(s.log);
    ScheduleCalm(o, s.log, s);
    CalmServes(live, n, s.log, Schedule(o, s).log);
  }

  lemma EnqueueServes(o: Oracle, live: map<nat, LiveJob>, n: nat, s: State, id: nat)
    requires Served(live, s.log, n)
    ensures Served(live, Enqueue(o, s, id).log, n)
  {
    hide Valid, Enqueue, Served, Calm;
    CalmSelf(s.log);
    EnqueueCalm(o, s.log, s, id);
    CalmServes(live, n, s.log, Enqueue(o, s, id).log);
  }

  lemma FinalizeServes(o: Oracle, live: map<nat, LiveJob>, n: nat, s: State, id: nat)
    requires Served(live, s.log, n)
    ensures Served(live, Finalize(o, s, id).log, n)
  {
    hide Valid, Finalize, Served, Calm;
    CalmSelf(s.log);
    FinalizeCalm(o, s.log, s, id);
    CalmServes(live, n, s.log, Finalize(o, s, id).log);
  }

  // ---------- recovery sends none ----------

  lemma {:induction false} KillLeftoversServes(o: Oracle, live: map<nat, LiveJob>, n: nat, s: State, id: nat,
                                               ps: seq<ProcRef>)
    requires Served(live, s.log, n)
    ensures Served(live, KillLeftovers(o, s, id, ps).log, n)
  {
    hide Valid, Emit, Served;
    if ps != [] {
      var t, p := KillLeftovers(o, s, id, ps[..|ps| - 1]), ps[|ps| - 1];
      KillLeftoversServes(o, live, n, s, id, ps[..|ps| - 1]);
      EmitServes(live, n, t.(calls := t.calls + 1), LeftoverKilled(id, p.pid, p.start, p.start));
    }
  }

  lemma RecoverOneServes(o: Oracle, live: map<nat, LiveJob>, n: nat, s: State, id: nat)
    requires Served(live, s.log, n)
    ensures Served(live, RecoverOne(o, s, id).log, n)
  {
    hide Valid, Save, KillLeftovers, Enqueue, ParsedProcs, Served;
    if id in s.world.disk {
      var m := s.world.disk[id];
      var t := KillLeftovers(o, s, id, ParsedProcs(m.procs));
      KillLeftoversServes(o, live, n, s, id, ParsedProcs(m.procs));
      SaveServes(o, live, n, t.(calls := t.calls + 1),
                 m.(state := Failed, error := RESTARTED, finishedMs := o(t.calls).realtime));
      EnqueueServes(o, live, n, s, id);
    }
  }

  lemma {:induction false} RecoverAllServes(o: Oracle, live: map<nat, LiveJob>, n: nat, s: State, ids: seq<nat>)
    requires Served(live, s.log, n)
    ensures Served(live, RecoverAll(o, s, ids).log, n)
  {
    hide Valid, RecoverOne, Served;
    if ids != [] {
      RecoverAllServes(o, live, n, s, ids[..|ids| - 1]);
      RecoverOneServes(o, live, n, RecoverAll(o, s, ids[..|ids| - 1]), ids[|ids| - 1]);
    }
  }

  // ---------- rounds ----------

  /** The loop of signal_job leaves out nobody, and sends nothing else. */
  lemma {:induction false} SignalsReach(s: State, id: nat, ps: seq<ProcRef>, sig: Signo, p: nat)
    requires p < |s.log|
    ensures var log := Signals(s, id, ps, sig).log;
      && s.log <= log && AllSent(log, p, id, ps, sig)
      && forall q :: |s.log| <= q < |log| ==> log[q].Signalled?
  {
    hide Valid, Observe;
    if ps != [] {
      var front, last := ps[..|ps| - 1], ps[|ps| - 1];
      SignalsReach(s, id, front, sig, p);
      var t, u := Signals(s, id, front, sig), Signals(s, id, ps, sig);
      forall i | 0 <= i < |ps| && ps[i].pid > 0 && !ps[i].reaped ensures SentAfter(u.log, p, id, ps[i].pid, sig) {
        if i < |front| {
          assert ps[i] == front[i];
          assert SentAfter(t.log, p, id, front[i].pid, sig);
          var q :| p < q < |t.log| && t.log[q] == Signalled(id, ps[i].pid, sig);
          assert u.log[q] == t.log[q];
        } else {
          assert u.log[|t.log|] == Signalled(id, ps[i].pid, sig);
        }
      }
    }
  }

  lemma SignalJobServes(live: map<nat, LiveJob>, n: nat, s: State, id: nat, sig: Signo)
    requires id in s.live && Held(live, s) && Served(live, s.log, n)
    ensures Served(live, SignalJob(s, id, sig).log, n)
  {
    hide Valid, Observe, Signals, AllSent;
    var t := Emit(s, StopRound(id, sig, s.clock));
    var log := SignalJob(s, id, sig).log;
    SignalsReach(t, id, s.live[id].procs, sig, |s.log|);
    assert s.log <= t.log <= log;
    forall p | n <= p < |log| && log[p].StopRound? ensures Reached(live, log, p) {
      if p < |s.log| {
        assert log[p] == t.log[p] == s.log[p];
        SentLater(s.log, log, p, log[p].id, live[log[p].id].procs, log[p].sig);
      } else {
        assert p == |s.log|;
        assert log[p] == t.log[p];
      }
    }
  }

  lemma SignalJobHolds(live: map<nat, LiveJob>, s: State, id: nat, sig: Signo)
    requires id in s.live
    ensures var t := SignalJob(s, id, sig); t.live == s.live && t.clock == s.clock
  {
    hide Valid, Emit;
    var t := Emit(s, StopRound(id, sig, s.clock));
    EmitFrame(s, StopRound(id, sig, s.clock));
  }

  lemma RequestStopServes(o: Oracle, live: map<nat, LiveJob>, n: nat, s: State, id: nat, reason: Stop)
    requires id in s.live && Held(live, s) && Served(live, s.log, n)
    ensures Held(live, RequestStop(o, s, id, reason)) && Served(live, RequestStop(o, s, id, reason).log, n)
  {
    hide Valid, SignalJob, Served;
    if s.live[id].stop == NoStop {
      var now := s.clock + o(s.calls).elapsed;
      var u := s.(calls := s.calls + 1, clock := now,
                  live := s.live[id := s.live[id].(stop := reason, stopSentMs := now)]);
      SignalJobServes(live, n, u, id, SIGTERM);
      SignalJobHolds(live, u, id, SIGTERM);
    }
  }

  lemma OnCancelServes(o: Oracle, live: map<nat, LiveJob>, n: nat, s: State, id: nat)
    requires Held(live, s) && Served(live, s.log, n)
    ensures Held(live, OnCancel(o, s, id)) && Served(live, OnCancel(o, s, id).log, n)
  {
    hide Valid, Save, RequestStop, Terminal, Served;
    var a := o(s.calls);
    var t := s.(calls := s.calls + 1);
    if id in s.live {
      SaveServes(o, live, n, t, s.live[id].meta.(state := Cancelled, error := "cancelled before start",
                                                 finishedMs := a.realtime));
      RequestStopServes(o, live, n, s, id, StopCancelled);
    } else if id in s.world.disk {
      SaveServes(o, live, n, t, s.world.disk[id].(state := Cancelled, error := "cancelled", finishedMs := a.realtime));
    }
  }

  lemma {:induction false} CancelAllServes(o: Oracle, live: map<nat, LiveJob>, n: nat, s: State, ids: seq<nat>)
    requires Held(live, s) && Served(live, s.log, n)
    ensures Held(live, CancelAll(o, s, ids)) && Served(live, CancelAll(o, s, ids).log, n)
  {
    hide Valid, OnCancel, Served, Held;
    if ids != [] {
      CancelAllServes(o, live, n, s, ids[..|ids| - 1]);
      OnCancelServes(o, live, n, CancelAll(o, s, ids[..|ids| - 1]), ids[|ids| - 1]);
    }
  }

  lemma {:induction false} StopAllServes(o: Oracle, live: map<nat, LiveJob>, n: nat, s: State, ids: seq<nat>)
    requires Held(live, s) && Served(live, s.log, n)
    ensures Held(live, StopAll(o, s, ids)) && Served(live, StopAll(o, s, ids).log, n)
  {
    hide Valid, RequestStop, Served, Held;
    if ids != [] {
      var t, id := StopAll(o, s, ids[..|ids| - 1]), ids[|ids| - 1];
      StopAllServes(o, live, n, s, ids[..|ids| - 1]);
      if id in t.live {
        RequestStopServes(o, live, n, t, id, StopShutdown);
      }
    }
  }

  lemma {:induction false} EscalateServes(live: map<nat, LiveJob>, n: nat, s: State, ids: seq<nat>)
    requires Held(live, s) && Served(live, s.log, n)
    ensures Held(live, Escalate(s, ids)) && Served(live, Escalate(s, ids).log, n)
  {
    hide Valid, SignalJob, Served;
    if ids != [] {
      var t, id := Escalate(s, ids[..|ids| - 1]), ids[|ids| - 1];
      EscalateServes(live, n, s, ids[..|ids| - 1]);
      if id in t.live {
        SignalJobServes(live, n, t, id, SIGKILL);
        SignalJobHolds(live, t, id, SIGKILL);
      }
    }
  }

  lemma HandleLineServes(o: Oracle, live: map<nat, LiveJob>, n: nat, s: State, line: string, order: seq<nat>)
    requires Held(live, s) && Served(live, s.log, n)
    ensures Served(live, HandleLine(o, s, line, order).log, n)
  {
    hide Valid, CancelAll, StopAll, Enqueue, OnCancel, ParsedU64, Served;
    if line == "SHUTDOWN" {
      var s1 := s.(shuttingDown := true);
      CancelAllServes(o, live, n, s1, s.queue);
      StopAllServes(o, live, n, CancelAll(o, s1, s.queue), order);
    } else if "SUBMIT " <= line {
      match ParsedU64(line[7..])
      case Some(id) => EnqueueServes(o, live, n, s, id);
      case None =>
    } else if "CANCEL " <= line {
      match ParsedU64(line[7..])
      case Some(id) => OnCancelServes(o, live, n, s, id);
      case None =>
    }
  }

  /** The jobs note_reap finds, once it has marked the process. */
  ghost function AfterReap(s: State, pid: int32, how: WaitStatus): map<nat, LiveJob> {
    if pid !in s.pidOwner || s.pidOwner[pid] !in s.live then s.live
    else
      var id := s.pidOwner[pid];
      s.live[id := s.live[id].(procs := Mark(s.live[id].procs, pid, how))]
  }

  lemma NoteReapServes(o: Oracle, n: nat, s: State, pid: int32, how: WaitStatus)
    requires Served(AfterReap(s, pid, how), s.log, n)
    ensures Served(AfterReap(s, pid, how), NoteReap(o, s, pid, how).log, n)
  {
    hide Valid, Emit, RequestStop, Finalize, Mark, AllReaped, AnyBad, Served;
    var live := AfterReap(s, pid, how);
    EmitServes(live, n, s, Waited(pid));
    EmitFrame(s, Waited(pid));
    if pid in s.pidOwner && s.pidOwner[pid] in s.live {
      var id := s.pidOwner[pid];
      var t := Emit(s, Waited(pid)).(live := live);
      RequestStopServes(o, live, n, t, id, StopFailed);
      FinalizeServes(o, live, n, t, id);
      FinalizeServes(o, live, n, RequestStop(o, t, id, StopFailed), id);
    }
  }

  /** The jobs as they are when an event comes to send signals. */
  ghost function Jobs(s: State, e: Event): map<nat, LiveJob> {
    if e.Reap? then AfterReap(s, e.pid, e.how) else s.live
  }

  lemma HandleServes(o: Oracle, s: State, e: Event)
    ensures Served(Jobs(s, e), Handle(o, s, e).log, |s.log|)
  {
    hide Valid, Emit, Recover, HandleLine, NoteReap, Schedule, OnDeadline, Escalate, AfterReap, RequestStop;
    var live, n := Jobs(s, e), |s.log|;
    assert Served(live, s.log, n);
    assert e.Reap? || Held(live, s);
    hide Served, Held;
    match e
    case NewRecord(m) => EmitServes(live, n, s, Created(m));
    case Boot(ids) => RecoverServes(o, live, n, s, ids);
    case Line(line, order) => HandleLineServes(o, live, n, s, line, order);
    case Reap(pid, how) => NoteReapServes(o, n, s, pid, how);
    case Reschedule => ScheduleServes(o, live, n, s);
    case Deadline(id) => DeadlineServes(o, live, n, s, id);
    case Tick(order) => TickServes(o, live, n, s, order);
  }

  lemma RecoverServes(o: Oracle, live: map<nat, LiveJob>, n: nat, s: State, ids: seq<nat>)
    requires Served(live, s.log, n)
    ensures Served(live, Recover(o, s, ids).log, n)
  {
    hide Valid, Served, RecoverAll;
    RecoverAllServes(o, live, n, s, ids);
  }

  lemma DeadlineServes(o: Oracle, live: map<nat, LiveJob>, n: nat, s: State, id: nat)
    requires Held(live, s) && Served(live, s.log, n)
    ensures Served(live, OnDeadline(o, s, id).log, n)
  {
    hide Valid, Served, Held, RequestStop;
    if id in s.live {
      RequestStopServes(o, live, n, s, id, StopTimedOut);
    }
  }

  lemma TickServes(o: Oracle, live: map<nat, LiveJob>, n: nat, s: State, order: seq<nat>)
    requires Held(live, s) && Served(live, s.log, n)
    ensures Served(live, OnTick(o, s, order).log, n)
  {
    hide Valid, Served, Escalate;
    EscalateServes(live, n, s.(calls := s.calls + 1, clock := s.clock + o(s.calls).elapsed), order);
  }

  // ---------- over runs ----------

  /** The event is the report of this process of this job. */
  predicate Reports(s: State, e: Event, id: nat, pid: int32) {
    e.Reap? && e.pid == pid && pid in s.pidOwner && s.pidOwner[pid] == id
  }

  /**
   * Every round that a step logs is for a job that was live, and reaches each of its processes that has a positive pid
   * and has not been waited for, the one whose end is being handled left out: the signal is on the log of the same
   * step, after the round.
   */
  lemma RoundsAreDelivered(o: Oracle, ss: seq<State>, ps: seq<Step>, k: nat, p: nat, i: nat)
    requires Run(o, ss, ps) && k < |ps| && ps[k].Do? && |ss[k].log| <= p < |ss[k + 1].log|
    requires ss[k + 1].log[p].StopRound?
    ensures ss[k + 1].log[p].id in ss[k].live
    ensures var round, log := ss[k + 1].log[p], ss[k + 1].log;
      var procs := ss[k].live[round.id].procs;
      i < |procs| && procs[i].pid > 0 && !procs[i].reaped && !Reports(ss[k], ps[k].event, round.id, procs[i].pid) ==>
        exists q :: p < q < |log| && log[q] == Signalled(round.id, procs[i].pid, round.sig)
  {
    hide Valid, Handle, Served, RunInv, Inv, Enabled, Run;
    StepRuns(o, ss, ps, k);
    HandleServes(o, ss[k], ps[k].event);
    RoundReached(ss[k], ps[k].event, ss[k + 1].log, p, i);
  }

  lemma RoundReached(s: State, e: Event, log: seq<Effect>, p: nat, i: nat)
    requires Served(Jobs(s, e), log, |s.log|) && |s.log| <= p < |log| && log[p].StopRound?
    ensures log[p].id in s.live
    ensures var procs := s.live[log[p].id].procs;
      i < |procs| && procs[i].pid > 0 && !procs[i].reaped && !Reports(s, e, log[p].id, procs[i].pid) ==>
        exists q :: p < q < |log| && log[q] == Signalled(log[p].id, procs[i].pid, log[p].sig)
  {
    hide Valid, AllSent;
    assert Reached(Jobs(s, e), log, p);
    var id := log[p].id;
    var procs, now := s.live[id].procs, Jobs(s, e)[id].procs;
    if i < |procs| && procs[i].pid > 0 && !procs[i].reaped && !Reports(s, e, id, procs[i].pid) {
      assert now[i] == procs[i];
      SentTo(log, p, id, now, log[p].sig, i);
    }
  }

  lemma SentTo(log: seq<Effect>, p: nat, id: nat, ps: seq<ProcRef>, sig: Signo, i: nat)
    requires AllSent(log, p, id, ps, sig) && i < |ps| && ps[i].pid > 0 && !ps[i].reaped
    ensures exists q :: p < q < |log| && log[q] == Signalled(id, ps[i].pid, sig)
  {
    assert SentAfter(log, p, id, ps[i].pid, sig);
  }

  // ---------- who gets a round ----------

  /** A round of this signal for this job is on the log from `n` on. */
  ghost predicate RoundSince(log: seq<Effect>, n: nat, id: nat, sig: Signo) {
    exists p :: n <= p < |log| && log[p].StopRound? && log[p].id == id && log[p].sig == sig
  }

  lemma RoundEarlier(log: seq<Effect>, n: nat, id: nat, sig: Signo)
    requires |log| > 0 && RoundSince(log[..|log| - 1], n, id, sig)
    ensures RoundSince(log, n, id, sig)
  {
    var p :| n <= p < |log| - 1 && log[..|log| - 1][p].StopRound? && log[..|log| - 1][p].id == id
             && log[..|log| - 1][p].sig == sig;
    assert log[p] == log[..|log| - 1][p];
  }

  /** A launch that has had no signal at `n`, and has had one at the end, got SIGTERM in between. */
  lemma {:induction false} TermSince(log: seq<Effect>, n: nat, id: nat)
    requires n <= |log| && Replay(log).ok && id in Replay(log).stops && !Replay(log).stops[id].NoStops?
    requires id in Replay(log[..n]).stops && Replay(log[..n]).stops[id].NoStops?
    ensures RoundSince(log, n, id, SIGTERM)
  {
    hide Valid, RoundSince, Aimed, OutputRule, LoopRule, SaveRule;
    AtEnd(log);
    if n < |log| {
      var front, e := log[..|log| - 1], log[|log| - 1];
      assert front[..n] == log[..n];
      if e.StopRound? && e.id == id && e.sig == SIGTERM {
        LastIsRound(log, n, id, SIGTERM);
      } else {
        assert Replay(log) == Observe(Replay(front), e);
        TermSince(front, n, id);
        RoundEarlier(log, n, id, SIGTERM);
      }
    }
  }

  lemma LastIsRound(log: seq<Effect>, n: nat, id: nat, sig: Signo)
    requires n < |log| && log[|log| - 1].StopRound? && log[|log| - 1].id == id && log[|log| - 1].sig == sig
    ensures RoundSince(log, n, id, sig)
  {
  }

  lemma {:induction false} KillSince(log: seq<Effect>, n: nat, id: nat)
    requires n <= |log| && id in Replay(log).stops && Replay(log).stops[id].KilledToo?
    requires id in Replay(log[..n]).stops && !Replay(log[..n]).stops[id].KilledToo?
    ensures RoundSince(log, n, id, SIGKILL)
  {
    hide Valid, RoundSince, Aimed, Rule;
    AtEnd(log);
    if n < |log| {
      var front, e := log[..|log| - 1], log[|log| - 1];
      assert front[..n] == log[..n];
      if e.StopRound? && e.id == id && e.sig == SIGKILL {
        LastIsRound(log, n, id, SIGKILL);
      } else {
        assert Replay(log) == Observe(Replay(front), e);
        KillSince(front, n, id);
        RoundEarlier(log, n, id, SIGKILL);
      }
    }
  }

  /** What the invariant says of the rounds of a running job. */
  lemma StopsOf(s: State, id: nat)
    requires RunInv(s) && id in s.live && s.live[id].meta.state.Running?
    ensures s.world == Replay(s.log) && s.world.ok && id in s.world.stops
    ensures s.world.stops[id].NoStops? <==> s.live[id].stop == NoStop
    ensures s.world.stops[id].KilledToo? <==> s.live[id].escalated
  {
    hide Valid, Busy, Draining, Tracked, Shaped, OnDisk, Replay;
    assert JobInv(s, id);
  }

  lemma RunningStays(s: State, t: State, id: nat)
    requires Inv(s) && Steady(s, t) && id in s.live && id in t.live && !s.live[id].meta.state.Queued?
    ensures s.live[id].meta.state.Running? && t.live[id].meta.state.Running?
  {
    hide Valid, Core, Busy, Draining, LaterProc;
    LiveJobRuns(s, id);
    assert LaterJob(s.live[id], t.live[id]);
  }

  /** A job that a step tells to stop gets its round of SIGTERM in it, and one that a step escalates one of SIGKILL. */
  lemma StopsAreSent(o: Oracle, ss: seq<State>, ps: seq<Step>, k: nat, id: nat)
    requires Run(o, ss, ps) && k < |ps| && ps[k].Do? && id in ss[k].live && !ss[k].live[id].meta.state.Queued?
    requires id in ss[k + 1].live
    ensures var was, now := ss[k].live[id], ss[k + 1].live[id];
      && (was.stop == NoStop && now.stop != NoStop ==> RoundSince(ss[k + 1].log, |ss[k].log|, id, SIGTERM))
      && (!was.escalated && now.escalated ==> RoundSince(ss[k + 1].log, |ss[k].log|, id, SIGKILL))
  {
    hide Valid, Run, Handle, RunInv, RoundSince, Enabled, Replay, Inv, Steady;
    StepRuns(o, ss, ps, k);
    RunKeepsInv(o, ss, ps, k + 1);
    RunLogGrows(o, ss, ps, k, k + 1);
    RunningJobsMoveOn(o, ss[k], ps[k].event);
    RunningStays(ss[k], ss[k + 1], id);
    StopsOf(ss[k], id);
    StopsOf(ss[k + 1], id);
    var log, n := ss[k + 1].log, |ss[k].log|;
    var was, now := ss[k].live[id], ss[k + 1].live[id];
    if was.stop == NoStop && now.stop != NoStop {
      TermSince(log, n, id);
    }
    if !was.escalated && now.escalated {
      KillSince(log, n, id);
    }
  }

  /**
   * So the step that tells a job to stop sends SIGTERM to each of its processes, and the one that escalates it SIGKILL:
   * to each with a positive pid that has not been waited for.
   */
  lemma StopReachesEveryProcess(o: Oracle, ss: seq<State>, ps: seq<Step>, k: nat, id: nat, i: nat)
    requires Run(o, ss, ps) && k < |ps| && ps[k].Do? && id in ss[k].live && !ss[k].live[id].meta.state.Queued?
    requires id in ss[k + 1].live && i < |ss[k].live[id].procs|
    requires var proc := ss[k].live[id].procs[i];
      proc.pid > 0 && !proc.reaped && !Reports(ss[k], ps[k].event, id, proc.pid)
    ensures var was, now, n := ss[k].live[id], ss[k + 1].live[id], |ss[k].log|;
      && (was.stop == NoStop && now.stop != NoStop ==> SentAfter(ss[k + 1].log, n, id, was.procs[i].pid, SIGTERM))
      && (!was.escalated && now.escalated ==> SentAfter(ss[k + 1].log, n, id, was.procs[i].pid, SIGKILL))
  {
    hide Valid, Run, Reports, RoundSince;
    RunShape(o, ss, ps);
    StopsAreSent(o, ss, ps, k, id);
    var was, now, n := ss[k].live[id], ss[k + 1].live[id], |ss[k].log|;
    if was.stop == NoStop && now.stop != NoStop {
      RoundSends(o, ss, ps, k, id, i, SIGTERM);
    }
    if !was.escalated && now.escalated {
      RoundSends(o, ss, ps, k, id, i, SIGKILL);
    }
  }

  lemma RunShape(o: Oracle, ss: seq<State>, ps: seq<Step>)
    requires Run(o, ss, ps)
    ensures |ss| == |ps| + 1
  {
  }

  lemma RoundSends(o: Oracle, ss: seq<State>, ps: seq<Step>, k: nat, id: nat, i: nat, sig: Signo)
    requires Run(o, ss, ps) && k < |ps| && ps[k].Do? && RoundSince(ss[k + 1].log, |ss[k].log|, id, sig)
    requires id in ss[k].live && i < |ss[k].live[id].procs|
    requires var proc := ss[k].live[id].procs[i];
      proc.pid > 0 && !proc.reaped && !Reports(ss[k], ps[k].event, id, proc.pid)
    ensures SentAfter(ss[k + 1].log, |ss[k].log|, id, ss[k].live[id].procs[i].pid, sig)
  {
    hide Valid, Run, Reports;
    RunShape(o, ss, ps);
    var log := ss[k + 1].log;
    var p :| |ss[k].log| <= p < |log| && log[p].StopRound? && log[p].id == id && log[p].sig == sig;
    RoundsAreDelivered(o, ss, ps, k, p, i);
  }

  // ---------- the tick ----------

  /**
   * A tick escalates exactly the jobs that were told to stop more than a second before it and have not been escalated,
   * and changes nothing else of any job.
   */
  lemma TickEscalates(o: Oracle, ss: seq<State>, ps: seq<Step>, k: nat, order: seq<nat>, id: nat)
    requires Run(o, ss, ps) && k < |ps| && ps[k] == Do(Tick(order)) && id in ss[k].live
    ensures id in ss[k + 1].live && ss[k + 1].clock == ss[k].clock + o(ss[k].calls).elapsed
    ensures var was := ss[k].live[id];
      ss[k + 1].live[id] == was.(escalated := was.escalated
        || (was.stop != NoStop && was.stopSentMs != 0 && ss[k + 1].clock - was.stopSentMs > 1000))
  {
    hide Valid, Run, RunInv, Inv, Escalate;
    StepRuns(o, ss, ps, k);
    var s := ss[k];
    EscalateIs(s.(calls := s.calls + 1, clock := s.clock + o(s.calls).elapsed), order);
  }

  lemma {:induction false} EscalateIs(s: State, ids: seq<nat>)
    ensures var t := Escalate(s, ids);
      && t.live.Keys == s.live.Keys && t.clock == s.clock
      && forall x :: x in s.live ==>
           t.live[x] == s.live[x].(escalated := s.live[x].escalated
             || (x in ids && s.live[x].stop != NoStop && s.live[x].stopSentMs != 0
                 && s.clock - s.live[x].stopSentMs > 1000))
  {
    hide Valid, SignalJob;
    if ids == [] {
    } else {
      var front, id := ids[..|ids| - 1], ids[|ids| - 1];
      assert ids == front + [id];
      EscalateIs(s, front);
      var t := Escalate(s, front);
      if id in t.live {
        SignalJobHolds(t.live, t, id, SIGKILL);
      }
    }
  }
}
