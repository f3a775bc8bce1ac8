/**
 * Whole runs: any sequence of events, with the controller killed at any effect and started again, any number of
 * times. A killed controller leaves its log up to that effect, and the records and processes the log describes.
 */
module ControllerRuns {
  import opened Base
  import opened MetaCodec
  import opened Procs
  import opened Text
  import opened Validate
  import opened History
  import opened ControllerSpec
  import opened ControllerInv
  import opened ControllerKeeps
  import opened ControllerLines
  import opened ControllerLog

  datatype Event =
    | NewRecord(meta: Meta)                     // `forge submit` writes a record
    | Boot(ids: seq<nat>)                       // recover, on what list_job_ids returned
    | Line(line: string, order: seq<nat>)       // handle_line
    | Reap(pid: int32, how: WaitStatus)         // SIGCHLD: one turn of the loop of reap
    | Reschedule                                // schedule at the end of a batch of events
    | Deadline(id: nat)
    | Tick(order: seq<nat>)

  /** `order` is an order in which the hash table can yield the live jobs. */
  ghost predicate Covers(s: State, order: seq<nat>) {
    forall x :: x in s.live ==> x in order
  }

  ghost predicate Enabled(s: State, e: Event) {
    match e
    case NewRecord(m) => m.id !in s.world.disk && m.id !in s.live && m.state.Submitted?
    case Boot(ids) => !s.booted && Distinct(ids) && forall id :: id in s.world.disk ==> id in ids
    case Line(_, order) => s.booted && Covers(s, order)
    case Tick(order) => s.booted && Covers(s, order)
    case _ => s.booted
  }

  function Handle(o: Oracle, s: State, e: Event): State {
    match e
    case NewRecord(m) => Emit(s, Created(m))
    case Boot(ids) => Recover(o, s, ids)
    case Line(line, order) => HandleLine(o, s, line, order)
    case Reap(pid, how) => NoteReap(o, s, pid, how)
    case Reschedule => Schedule(o, s)
    case Deadline(id) => OnDeadline(o, s, id)
    case Tick(order) => OnTick(o, s, order)
  }

  /** A step: an event, or an event cut short when `cut` effects are on the log, and a restart. */
  datatype Step = Do(event: Event) | Crash(event: Event, cut: nat, slots: nat)

  ghost predicate CanStep(o: Oracle, s: State, p: Step) {
    && Enabled(s, p.event)
    && (p.Crash? ==> |s.log| <= p.cut <= |Handle(o, s, p.event).log|)
  }

  function Next(o: Oracle, s: State, p: Step): State
    requires p.Crash? ==> p.cut <= |Handle(o, s, p.event).log|
  {
    var t := Handle(o, s, p.event);
    match p
    case Do(_) => t
    case Crash(_, cut, slots) => ControllerSpec.Boot(slots, t.log[..cut], t.clock, t.calls, t.newPids)
  }

  /** The states a run goes through. */
  ghost predicate Run(o: Oracle, ss: seq<State>, ps: seq<Step>) {
    && |ss| == |ps| + 1 && (exists slots: nat :: ss[0] == ControllerSpec.Boot(slots, [], 0, 0, true))
    && forall k :: 0 <= k < |ps| ==> CanStep(o, ss[k], ps[k]) && ss[k + 1] == Next(o, ss[k], ps[k])
  }

  /** What every state of a run satisfies. Before recover the controller has done nothing. */
  ghost predicate RunInv(s: State) {
    Inv(s) && s.world == Replay(s.log) && (!s.booted ==> s.live == map[] && !s.shuttingDown)
  }

  // ---------- every step keeps the invariant ----------

  lemma {:induction false} LawfulLogs(log: seq<Effect>)
    requires Replay(log).ok
    ensures LoopsAreRecorded(Replay(log)) && FiledById(Replay(log))
  {
    hide Rule, Aimed;
    if log != [] {
      var front, e := log[..|log| - 1], log[|log| - 1];
      LawfulLogs(front);
      ObserveKeepsFiles(Replay(front), e);
      ObserveKeepsLoops(Replay(front), e);
      hide LoopsAreRecorded, FiledById;
    }
  }

  /** A controller that has just started satisfies the invariant, whatever lawful log it finds. */
  lemma BootInv(slots: nat, log: seq<Effect>, clock: nat, calls: nat, newPids: bool)
    requires Replay(log).ok && (newPids ==> Replay(log).aimed)
    ensures RunInv(ControllerSpec.Boot(slots, log, clock, calls, newPids))
  {
    hide Valid, LoopsAreRecorded, FiledById, JobInv, Replay;
    RestartReplay(log);
    var log' := log + [Restarted];
    LawfulLogs(log');
    var s := ControllerSpec.Boot(slots, log, clock, calls, newPids);
    assert Slots(s.live) == {};
  }

  lemma RestartReplay(log: seq<Effect>)
    ensures var w := Replay(log + [Restarted]);
      w.ok == Replay(log).ok && w.aimed == Replay(log).aimed && w.children == map[]
  {
    hide Valid;
    var log' := log + [Restarted];
    assert log'[..|log'| - 1] == log;
    assert Replay(log') == Observe(Replay(log), Restarted);
  }

  lemma HandleLineKeeps(o: Oracle, s: State, line: string, order: seq<nat>)
    requires Inv(s) && s.booted && Covers(s, order)
    ensures var t := HandleLine(o, s, line, order); Inv(t) && t.booted
  {
    hide Valid, Inv, Enqueue, OnCancel, Shutdown, ParsedU64, Carried, CarriedBut;
    if line == "SHUTDOWN" {
      ShutdownKeeps(o, s, order);
      BootedStays(s.(shuttingDown := true), Shutdown(o, s, order));
    } else if "SUBMIT " <= line {
      match ParsedU64(line[7..])
      case Some(id) =>
        EnqueueKeeps(o, s, id);
        BootedStaysBut(s, Enqueue(o, s, id), id);
      case None =>
    } else if "CANCEL " <= line {
      match ParsedU64(line[7..])
      case Some(id) =>
        OnCancelKeeps(o, s, id);
        BootedStaysBut(s, OnCancel(o, s, id), id);
      case None =>
    }
  }

  lemma BootedStays(s: State, t: State)
    requires Carried(s, t)
    ensures t.booted == s.booted
  {
    hide Valid, Terminal;
  }

  lemma BootedStaysBut(s: State, t: State, id: nat)
    requires CarriedBut(s, t, id)
    ensures t.booted == s.booted
  {
    hide Valid, Terminal;
  }

  lemma NewRecordKeeps(s: State, m: Meta)
    requires Inv(s) && m.id !in s.world.disk && m.id !in s.live && m.state.Submitted?
    ensures Inv(Emit(s, Created(m)))
  {
    hide Valid, WorldInv, SlotsExact, OwnersLive, AllReaped, QueueLive, OthersAtRest, Emit;
    CreatedWorld(s, m);
    var u := Emit(s, Created(m));
    forall x | x in u.live ensures JobInv(u, x) {
      assert JobInv(s, x);
      hide JobInv;
      FramedKeeps(s, u, x);
    }
    hide JobInv;
    CreatedAtRest(s, u, m);
  }

  lemma CreatedWorld(s: State, m: Meta)
    requires Inv(s) && m.id !in s.world.disk && m.state.Submitted?
    ensures var u := Emit(s, Created(m));
      && WorldInv(u) && u == s.(log := u.log, world := u.world)
      && u.world == s.world.(disk := s.world.disk[m.id := m])
  {
    hide Valid, Core, Busy, Draining, FiledById, LoopsAreRecorded;
    WorldOfCore(s);
    EmitKeepsWorld(s, Created(m));
  }

  lemma CreatedAtRest(s: State, u: State, m: Meta)
    requires OthersAtRest(s.booted, s.world, s.live.Keys) && u == Emit(s, Created(m)) && m.state.Submitted?
    ensures OthersAtRest(u.booted, u.world, u.live.Keys)
  {
    hide Valid, Terminal, Rule, Aimed;
  }

  lemma NoteReapBooted(o: Oracle, s: State, pid: int32, how: WaitStatus)
    ensures NoteReap(o, s, pid, how).booted == s.booted
  {
    hide Valid, Settle, Judged, VerdictOf, Mark, AllReaped, AnyBad, Signals, Observe;
    SettleFrames(o);
  }

  lemma SettleFrames(o: Oracle)
    ensures forall s: State, m: Meta, a: Answer, v :: Settle(o, s, m, a, v).booted == s.booted
  {
    hide Valid, Save, Observe;
  }

  lemma HandleKeeps(o: Oracle, s: State, e: Event)
    requires RunInv(s) && Enabled(s, e)
    ensures RunInv(Handle(o, s, e)) && Extends(s, Handle(o, s, e))
  {
    hide Valid, Inv, Replay, Emit, Recover, HandleLine, NoteReap, Schedule, OnDeadline, OnTick, Carried, Extends;
    var t := Handle(o, s, e);
    match e {
      case NewRecord(m) =>
        NewRecordKeeps(s, m);
        EmitGrows(s, Created(m));
        EmitFrame(s, Created(m));
      case Boot(ids) =>
        RecoverKeeps(o, s, ids);
        RecoverGrows(o, s, ids);
      case Line(line, order) =>
        HandleLineKeeps(o, s, line, order);
        HandleLineGrows(o, s, line, order);
      case Reap(pid, how) =>
        NoteReapKeeps(o, s, pid, how);
        NoteReapGrows(o, s, pid, how);
        NoteReapBooted(o, s, pid, how);
      case Reschedule =>
        ScheduleKeeps(o, s);
        ScheduleGrows(o, s);
        BootedStays(s, t);
      case Deadline(id) =>
        OnDeadlineKeeps(o, s, id);
        OnDeadlineGrows(o, s, id);
        BootedStays(s, t);
      case Tick(order) =>
        OnTickKeeps(o, s, order);
        OnTickGrows(o, s, order);
        BootedStays(s, t);
    }
    ExtendsReplays(s, t);
  }

  lemma ExtendsReplays(s: State, t: State)
    requires Extends(s, t) && s.world == Replay(s.log)
    ensures t.world == Replay(t.log) && |s.log| <= |t.log| && t.log[..|s.log|] == s.log
  {
    hide Valid, Replay;
  }

  lemma LawOfInv(s: State)
    requires RunInv(s)
    ensures Replay(s.log).ok && (s.newPids ==> Replay(s.log).aimed)
  {
    hide Valid, Replay, LoopsAreRecorded, FiledById, JobInv, Busy, Draining;
  }

  /** Every event, and every crash followed by a restart, keeps the invariant and adds to the log. */
  lemma NextKeepsInv(o: Oracle, s: State, p: Step)
    requires RunInv(s) && CanStep(o, s, p)
    ensures var t := Next(o, s, p); RunInv(t) && |s.log| <= |t.log| && t.log[..|s.log|] == s.log
  {
    hide Valid, Inv, Replay, Handle, Enabled, Extends, RunInv;
    var t := Handle(o, s, p.event);
    HandleKeeps(o, s, p.event);
    ReplayOfInv(s);
    ExtendsReplays(s, t);
    match p
    case Do(_) =>
    case Crash(_, cut, slots) =>
      LawOfInv(t);
      Earlier(t.log, cut, |t.log|);
      AtEnd(t.log);
      CutLog(t.log, cut, |s.log|);
      BootInv(slots, t.log[..cut], t.clock, t.calls, t.newPids);
  }

  lemma ReplayOfInv(s: State)
    requires RunInv(s)
    ensures s.world == Replay(s.log)
  {
    hide Valid, Inv, Replay;
  }

  lemma CutLog(log: seq<Effect>, cut: nat, n: nat)
    requires n <= cut <= |log|
    ensures At(log, cut) == Replay(log[..cut])
    ensures (log[..cut] + [Restarted])[..n] == log[..n]
  {
  }

  lemma {:induction false} RunKeepsInv(o: Oracle, ss: seq<State>, ps: seq<Step>, k: nat)
    requires Run(o, ss, ps) && k < |ss|
    ensures RunInv(ss[k])
  {
    hide Valid, RunInv, CanStep, Next;
    if k == 0 {
      var slots: nat :| ss[0] == ControllerSpec.Boot(slots, [], 0, 0, true);
      BootInv(slots, [], 0, 0, true);
    } else {
      RunKeepsInv(o, ss, ps, k - 1);
      NextKeepsInv(o, ss[k - 1], ps[k - 1]);
    }
  }

  /** The log of a run only grows, across restarts too. */
  lemma {:induction false} RunLogGrows(o: Oracle, ss: seq<State>, ps: seq<Step>, k: nat, m: nat)
    requires Run(o, ss, ps) && k <= m < |ss|
    ensures |ss[k].log| <= |ss[m].log| && ss[m].log[..|ss[k].log|] == ss[k].log
  {
    hide Valid, RunInv, CanStep, Next;
    if k < m {
      RunLogGrows(o, ss, ps, k, m - 1);
      RunKeepsInv(o, ss, ps, m - 1);
      NextKeepsInv(o, ss[m - 1], ps[m - 1]);
      var a, b, n := ss[m - 1].log, ss[m].log, |ss[k].log|;
      assert b[..n] == b[..|a|][..n];
    }
  }
}
