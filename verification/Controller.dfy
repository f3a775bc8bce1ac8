/**
 * The controller's handlers in the source's own form: methods that update fields. Each is equal to its specification
 * function, keeps the joint invariant, and leaves the fields as the source's design promises.
 */
module Controller {
  import opened Base
  import opened MetaCodec
  import opened Procs
  import opened Text
  import opened Validate
  import opened History
  import Ranges
  import H = Handlers
  import I = ControllerInv
  import Keeps = ControllerKeeps
  import Lines = ControllerLines
  import R = Results
  import S = ControllerSpec

  class Controller {
    const slotsMax: nat
    const oracle: S.Oracle
    var slotsUsed: int
    var shuttingDown: bool
    var live: map<nat, S.LiveJob>
    var queue: seq<nat>
    var pidOwner: map<int32, nat>
    var clock: nat
    var calls: nat
    var world: World
    ghost var booted: bool
    ghost var log: seq<Effect>
    ghost var newPids: bool

    ghost function Abs(): S.State
      reads this
    {
      S.State(slotsMax, slotsUsed, shuttingDown, live, queue, pidOwner, booted, clock, calls, log, world, newPids)
    }

    /** The joint invariant of the five structures, the log and the records. */
    ghost predicate Consistent()
      reads this
    {
      H.Consistent(Abs())
    }

    /** A controller that starts on the world an earlier one left. */
    constructor (slotsMax: nat, oracle: S.Oracle, world: World, ghost log: seq<Effect>, clock: nat, calls: nat,
                 ghost newPids: bool)
      requires world == Replay(log)
      ensures Abs() == S.Boot(slotsMax, log, clock, calls, newPids) && this.oracle == oracle
      ensures world.ok && (newPids ==> world.aimed) ==> Consistent()
    {
      this.slotsMax := slotsMax;
      this.oracle := oracle;
      slotsUsed, shuttingDown, live, queue, pidOwner := 0, false, map[], [], map[];
      this.clock, this.calls := clock, calls;
      this.world := Observe(world, Restarted);
      booted := false;
      this.log := log + [Restarted];
      this.newPids := newPids;
      assert (log + [Restarted])[..|log|] == log;
      new;
      if world.ok && (newPids ==> world.aimed) {
        H.BootIsConsistent(slotsMax, log, clock, calls, newPids);
      }
    }

    // ---------- the outside world ----------

    method Ask() returns (a: S.Answer)
      modifies this`calls
      ensures a == oracle(old(calls)) && calls == old(calls) + 1
      ensures Abs() == old(Abs()).(calls := old(calls) + 1)
    {
      a := oracle(calls);
      calls := calls + 1;
    }

    method Emit(e: Effect)
      modifies this`world, this`log
      ensures Abs() == S.Emit(old(Abs()), e)
    {
      world := Observe(world, e);
      log := log + [e];
    }

    method SaveMeta(m: Meta)
      modifies this`world, this`log, this`calls
      ensures Abs() == S.Save(oracle, old(Abs()), m)
    {
      hide Valid, Observe;
      var a := Ask();
      Emit(if a.wrote then Saved(m) else SaveLost(m));
    }

    method MonoMs()
      modifies this`clock, this`calls
      ensures Abs() == old(Abs()).(calls := old(calls) + 1, clock := old(clock) + oracle(old(calls)).elapsed)
    {
      var a := Ask();
      clock := clock + a.elapsed;
    }

    // ---------- stopping ----------

    method SignalJob(id: nat, sig: Signo)
      requires id in live
      modifies this`world, this`log
      ensures Abs() == S.SignalJob(old(Abs()), id, sig)
    {
      hide Valid, Observe, S.Emit;
      ghost var s := S.Emit(Abs(), StopRound(id, sig, clock));
      Emit(StopRound(id, sig, clock));
      var procs := live[id].procs;
      for i := 0 to |procs|
        invariant Abs() == S.Signals(s, id, procs[..i], sig)
      {
        assert procs[..i + 1][..i] == procs[..i];
        if !(procs[i].reaped || procs[i].pid <= 0) {
          Emit(Signalled(id, procs[i].pid, sig));
        }
      }
      assert procs[..|procs|] == procs;
    }

    method RequestStop(id: nat, reason: S.Stop)
      requires id in live
      modifies this`world, this`log, this`calls, this`clock, this`live
      ensures Abs() == S.RequestStop(oracle, old(Abs()), id, reason)
      ensures old(I.Core(Abs()) && live[id].meta.state.Running?) && reason != S.NoStop ==>
        I.Core(Abs()) && id in live &&
          live[id].stop == if old(live[id].stop) == S.NoStop then reason else old(live[id].stop)
    {
      hide Valid, S.SignalJob, I.Core;
      if I.Core(Abs()) && live[id].meta.state.Running? && reason != S.NoStop {
        H.AfterStop(oracle, Abs(), id, reason);
      }
      if live[id].stop != S.NoStop {
        return;
      }
      MonoMs();
      live := live[id := live[id].(stop := reason, stopSentMs := clock)];
      SignalJob(id, SIGTERM);
    }

    // ---------- the end of a job ----------

    method ReleaseRuntime(id: nat)
      requires id in live
      modifies this`pidOwner, this`slotsUsed
      ensures Abs() == S.Release(old(Abs()), id)
    {
      hide Valid;
      var procs := live[id].procs;
      for i := 0 to |procs|
        invariant pidOwner == old(pidOwner) - S.Pids(procs[..i])
        invariant slotsUsed == old(slotsUsed)
      {
        assert procs[..i + 1] == procs[..i] + [procs[i]];
        assert S.Pids(procs[..i + 1]) == S.Pids(procs[..i]) + {procs[i].pid};
        pidOwner := pidOwner - {procs[i].pid};
      }
      assert procs[..|procs|] == procs;
      if live[id].usesSlot {
        slotsUsed := slotsUsed - 1;
      }
    }

    /** The loop that strips the newlines off the digest. */
    static method Stripped(body: string) returns (digest: string)
      ensures digest == TrimNewlines(body)
    {
      digest := body;
      while digest != "" && digest[|digest| - 1] == '\n'
        invariant TrimNewlines(digest) == TrimNewlines(body)
        decreases |digest|
      {
        digest := digest[..|digest| - 1];
      }
    }

    /** The part of finalize that decides the record. */
    method Judge(job: S.LiveJob, a: S.Answer) returns (m: Meta, v: R.Verdict)
      ensures m == S.Judged(job, a) && v == S.VerdictOf(job, a)
    {
      hide Valid, R.Accepts, R.Body, R.Why, TrimNewlines, ExitsText, StateText;
      var exits := JoinExits(job.procs);
      m := job.meta.(exits := exits, finishedMs := a.realtime);
      v := R.ResultsOk(S.EvidenceOf(job, a));
      match v
      case Rejected(why) =>
        var state: JobState := Failed;
        if job.stop == S.StopTimedOut {
          state := TimedOut;
        } else if job.stop == S.StopCancelled || job.stop == S.StopShutdown {
          state := Cancelled;
        }
        m := m.(state := state, error := if why == "" then StateText(state) else why);
      case Good(body) =>
        if (m.op.OpSha256? || m.op.OpCount?) && body != "" {
          var digest := Stripped(body);
          m := m.(digest := digest);
        }
        m := m.(state := Completed, error := "");
    }

    method Settle(m: Meta, a: S.Answer, v: R.Verdict)
      modifies this`world, this`log, this`calls
      ensures Abs() == S.Settle(oracle, old(Abs()), m, a, v)
    {
      hide Valid, S.Save, S.Emit;
      if v.Good? && v.body != "" {
        SaveMeta(m.(state := Persisting));
        if a.outputWritten {
          Emit(OutputWritten(m.id, v.body));
          SaveMeta(m);
        } else {
          SaveMeta(m.(state := Failed, error := a.text));
        }
      } else {
        SaveMeta(m);
      }
    }

    /** The end of finalize: nothing of the job is left in memory. */
    method Forget(id: nat)
      requires id in live
      modifies this`pidOwner, this`slotsUsed, this`live, this`queue
      ensures Abs() == S.Drop(S.Release(old(Abs()), id), id).(queue := S.RemoveAll(old(queue), id))
    {
      hide Valid, S.Release, S.RemoveAll;
      ReleaseRuntime(id);
      live := live - {id};
      queue := S.RemoveAll(queue, id);
    }

    method Finalize(id: nat)
      modifies this
      ensures Abs() == S.Finalize(oracle, old(Abs()), id)
      ensures old(I.Core(Abs()) && id in live && live[id].meta.state.Running? && S.AllReaped(live[id].procs)) ==>
        I.Core(Abs()) && live == old(live) - {id} && Keeps.Over(world, id)
    {
      hide Valid, S.Settle, S.Judged, S.VerdictOf, S.Release, S.Drop, S.AllReaped, I.Core, Keeps.Over, S.RemoveAll;
      if I.Core(Abs()) && id in live && live[id].meta.state.Running? && S.AllReaped(live[id].procs) {
        H.AfterEnd(oracle, Abs(), id);
      }
      if id !in live || live[id].finished {
        return;
      }
      var job := live[id];
      var a := Ask();
      var m, v := Judge(job, a);
      Settle(m, a, v);
      Forget(id);
    }

    // ---------- reaping ----------

    /** The loop of note_reap: which process it was, whether it was the last, whether any went wrong. */
    static method MarkReaped(was: seq<ProcRef>, pid: int32, how: WaitStatus)
      returns (procs: seq<ProcRef>, all: bool, anyBad: bool)
      ensures procs == S.Mark(was, pid, how)
      ensures all <==> S.AllReaped(procs)
      ensures anyBad <==> S.AnyBad(procs)
    {
      procs, all, anyBad := was, true, false;
      for i := 0 to |procs|
        invariant |procs| == |was|
        invariant forall k :: 0 <= k < i ==>
          procs[k] == if was[k].pid == pid then was[k].(reaped := true, how := how) else was[k]
        invariant forall k :: i <= k < |procs| ==> procs[k] == was[k]
        invariant all <==> forall k :: 0 <= k < i ==> procs[k].reaped
        invariant anyBad <==> exists k :: 0 <= k < i && procs[k].reaped && procs[k].how != Exited(0)
      {
        if procs[i].pid == pid {
          procs := procs[i := procs[i].(reaped := true, how := how)];
        }
        if !procs[i].reaped {
          all := false;
        }
        if procs[i].reaped && procs[i].how != Exited(0) {
          anyBad := true;
        }
      }
    }

    method NoteReap(pid: int32, how: WaitStatus)
      requires Consistent()
      modifies this
      ensures Abs() == S.NoteReap(oracle, old(Abs()), pid, how)
      ensures Consistent() && queue == old(queue) && world.loops == old(world.loops)
    {
      hide Valid, S.Emit, S.RequestStop, S.Finalize, S.Mark, S.AllReaped, S.AnyBad, H.Consistent;
      H.AfterReap(oracle, Abs(), pid, how);
      Emit(Waited(pid));
      if pid !in pidOwner {
        return;
      }
      var id := pidOwner[pid];
      if id !in live {
        return;
      }
      var procs, all, anyBad := MarkReaped(live[id].procs, pid, how);
      live := live[id := live[id].(procs := procs)];
      if anyBad && live[id].stop == S.NoStop {
        RequestStop(id, S.StopFailed);
      }
      if all {
        Finalize(id);
      }
    }

    // ---------- launching ----------

    /** pick_next, apart from taking the job off the queue. */
    method PickNext() returns (found: bool, id: nat)
      ensures S.Best(live, queue) == if found then Some(id) else None
    {
      hide Valid;
      var bestPri: int;
      found, id, bestPri := false, 0, 0;
      for i := 0 to |queue|
        invariant S.Best(live, queue[..i]) == if found then Some(id) else None
        invariant found ==> id in live && bestPri == live[id].meta.priority
      {
        assert queue[..i + 1][..i] == queue[..i];
        var cand := queue[i];
        if cand in live && live[cand].meta.state.Queued? {
          if !found || live[cand].meta.priority > bestPri
             || (live[cand].meta.priority == bestPri && cand < id) {
            found, id, bestPri := true, cand, live[cand].meta.priority;
          }
        }
      }
      assert queue[..|queue|] == queue;
    }

    method Schedule()
      modifies this
      ensures Abs() == S.Schedule(oracle, old(Abs()))
      ensures old(Consistent()) ==> Consistent() && Lines.WorkConserving(Abs())
    {
      hide Valid, S.Launch, S.Schedule, S.Best, H.Consistent, Lines.WorkConserving;
      if Consistent() {
        H.AfterSchedule(oracle, Abs());
      }
      ScheduleStep(oracle, Abs());
      if shuttingDown {
        return;
      }
      while slotsUsed < slotsMax
        invariant S.Schedule(oracle, Abs()) == S.Schedule(oracle, old(Abs()))
        invariant !shuttingDown
        decreases |queue|
      {
        ScheduleStep(oracle, Abs());
        var found, id := PickNext();
        if !found {
          return;
        }
        queue := S.RemoveAll(queue, id);
        LaunchJob(id);
      }
      ScheduleStep(oracle, Abs());
    }

    /** One turn of schedule. */
    static lemma ScheduleStep(o: S.Oracle, s: S.State)
      ensures var best := S.Best(s.live, s.queue);
        S.Schedule(o, s) ==
          if s.shuttingDown || s.slotsUsed >= s.slotsMax || best.None? then s
          else S.Schedule(o, S.Launch(o, s.(queue := S.RemoveAll(s.queue, best.value)), best.value))
    {
      hide Valid, S.Launch, S.Best;
    }

    /** The failure paths of launch_job that only save a failed record and forget the job. */
    method FailLaunch(id: nat, m: Meta)
      modifies this
      ensures Abs() == S.Drop(S.Save(oracle, old(Abs()), m), id)
    {
      hide Valid, S.Save;
      SaveMeta(m);
      live := live - {id};
    }

    method LaunchJob(id: nat)
      modifies this
      ensures Abs() == S.Launch(oracle, old(Abs()), id)
    {
      hide Valid, S.Save, S.Release, S.Spawn;
      if id !in live {
        return;
      }
      var a := Ask();
      var env := a.launch;
      var m: Meta := live[id].meta;
      if !m.op.OpExec? {
        if env.inspect.None? {
          SaveMeta(m.(error := a.text, state := Failed, finishedMs := a.realtime));
          ReleaseRuntime(id);
          live := live - {id};
          return;
        }
        m := m.(bytes := env.inspect.value);
      }
      StaysValid(live[id].meta, m);
      if !env.logOk {
        FailLaunch(id, m.(state := Failed, error := a.text));
        return;
      }
      if !m.op.OpExec? && !env.mapsOk {
        FailLaunch(id, m.(state := Failed, error := a.text));
        return;
      }
      Spawn(id, m, a);
    }

    /** launch_job from the first save to the last. */
    method Spawn(id: nat, m: S.GoodMeta, a: S.Answer)
      requires id in live
      modifies this
      ensures Abs() == S.Spawn(oracle, old(Abs()), id, m, a)
    {
      hide Valid, S.Save, S.Emit, SlicesOf, Formatted, S.Started, S.StartLoop, S.Forks, S.Aborts, S.FreshPids,
           S.Spawned;
      var chunks := CountSlices(m);
      ghost var cs := if |a.launch.children| < chunks then a.launch.children else a.launch.children[..chunks];
      BeginLoop(id, m, cs);
      var ok, spawned := ForkWorkers(id, chunks, a, cs);
      var m1: Meta := m.(startedMs := a.realtime);
      if !ok {
        AbortWorkers(spawned);
        FailLaunch(id, m1.(state := Failed, error := a.text, finishedMs := a.realtime));
        return;
      }
      var text := FormatProcs(S.Spawned(spawned));
      var m2: Meta := m1.(state := Running, procs := text);
      StaysValid(m, m2);
      SameSlices(m, m2);
      Start(id, m2, spawned, a.launch.timerOk);
      SaveMeta(m2);
    }

    method CountSlices(m: S.GoodMeta) returns (n: S.SlotCount)
      ensures n == |SlicesOf(m)|
    {
      ValidFitsTheRegion(m);
      hide Valid;
      var nworkers := if m.op.OpExec? then 1 else m.workers;
      var align := if m.io.IoDirect? then DIRECT_ALIGN else 1;
      var ranges := Ranges.Split(m.bytes as Ranges.u64, nworkers as Ranges.i32, align as Ranges.u64);
      n := |ranges|;
    }

    /** The state saved before the first fork. */
    method BeginLoop(id: nat, m: S.GoodMeta, ghost cs: seq<S.Child>)
      modifies this`world, this`log, this`calls, this`newPids
      ensures Abs() == S.StartLoop(oracle, old(Abs()), id, m, cs)
    {
      hide Valid, S.Save, S.Emit, S.FreshPids;
      SaveMeta(m.(state := Starting));
      Emit(ForkLoop(id));
      newPids := newPids && S.FreshPids(pidOwner, cs);
    }

    /** The fork loop; it stops at the first fork that fails. */
    method ForkWorkers(id: nat, chunks: nat, a: S.Answer, ghost cs: seq<S.Child>)
      returns (ok: bool, spawned: seq<S.Child>)
      requires cs == if |a.launch.children| < chunks then a.launch.children else a.launch.children[..chunks]
      modifies this`world, this`log
      ensures ok <==> |cs| == chunks
      ensures spawned == cs && Abs() == S.Forks(old(Abs()), id, cs)
    {
      hide Valid, S.Emit;
      ok, spawned := true, [];
      for i := 0 to chunks
        invariant i <= |cs| && spawned == cs[..i]
        invariant Abs() == S.Forks(old(Abs()), id, cs[..i])
      {
        if i >= |a.launch.children| {
          ok := false;
          assert cs[..i] == cs;
          break;
        }
        assert cs[..i + 1][..i] == cs[..i] && cs[..i + 1] == cs[..i] + [a.launch.children[i]];
        Emit(Forked(id, a.launch.children[i].pid));
        spawned := spawned + [a.launch.children[i]];
      }
      if ok {
        assert cs[..chunks] == cs;
      }
    }

    /** SIGKILL and waitid for the workers that were forked before a fork failed. */
    method AbortWorkers(spawned: seq<S.Child>)
      modifies this`world, this`log
      ensures Abs() == S.Aborts(old(Abs()), spawned)
    {
      hide Valid, S.Emit;
      for i := 0 to |spawned|
        invariant Abs() == S.Aborts(old(Abs()), spawned[..i])
      {
        assert spawned[..i + 1][..i] == spawned[..i];
        Emit(Aborted(spawned[i].pid));
      }
      assert spawned[..|spawned|] == spawned;
    }

    /** What is recorded in memory once every worker is forked. */
    method Start(id: nat, m: S.GoodMeta, spawned: seq<S.Child>, timerOk: bool)
      requires id in live && 1 <= |SlicesOf(m)| <= 16
      modifies this`pidOwner, this`slotsUsed, this`live
      ensures Abs() == S.Started(old(Abs()), id, m, spawned, timerOk)
    {
      hide Valid, SlicesOf, S.Own, S.Spawned;
      var procs := S.Spawned(spawned);
      OwnPids(id, procs);
      live := live[id := live[id].(meta := m, procs := procs,
                                   shm := if m.op.OpExec? then None else Some(|SlicesOf(m)|),
                                   deadline := m.deadlineS > 0 && timerOk, usesSlot := true)];
      slotsUsed := slotsUsed + 1;
    }

    method OwnPids(id: nat, procs: seq<ProcRef>)
      modifies this`pidOwner
      ensures pidOwner == S.Own(old(pidOwner), procs, id)
    {
      for i := 0 to |procs|
        invariant pidOwner == S.Own(old(pidOwner), procs[..i], id)
      {
        assert S.Pids(procs[..i + 1]) == S.Pids(procs[..i]) + {procs[i].pid} by {
          assert procs[..i + 1] == procs[..i] + [procs[i]];
        }
        pidOwner := pidOwner[procs[i].pid := id];
      }
      assert procs[..|procs|] == procs;
    }

    // ---------- control lines ----------

    method Enqueue(id: nat)
      modifies this
      ensures Abs() == S.Enqueue(oracle, old(Abs()), id)
      ensures old(Consistent() && (booted || (id in world.disk && world.disk[id].state in {Submitted, Queued}))) ==>
        Consistent() && (!shuttingDown && id in old(world.disk) ==> id in live || Keeps.Over(world, id))
    {
      hide S.Save, S.SaveBehind, S.Schedule, Problem, H.Consistent, Keeps.Over;
      if Consistent() && (booted || (id in world.disk && world.disk[id].state in {Submitted, Queued})) {
        H.AfterSubmit(oracle, Abs(), id);
      }
      if id !in world.disk {
        return;
      }
      var m := world.disk[id];
      InvalidHasProblem(m);
      StaysValid(m, m.(state := Queued));
      hide Valid;
      if shuttingDown {
        if !Terminal(m.state) {
          var a := Ask();
          m := m.(state := Cancelled, error := "controller is shutting down", finishedMs := a.realtime);
          SaveOver(id, m);
        }
        return;
      }
      if id in live || Terminal(m.state) {
        return;
      }
      if Problem(m).Some? {
        ProblemIsInvalid(m);
        var a := Ask();
        SaveMeta(m.(state := Failed, error := Problem(m).value, finishedMs := a.realtime));
        return;
      }
      ProblemIsInvalid(m);
      Admit(id, m.(state := Queued));
    }

    static lemma ProblemIsInvalid(m: Meta)
      ensures Valid(m) <==> Problem(m) == None
    {
    }

    /** save_meta of a record that enqueue read from disk; the job of that id may be live. */
    method SaveOver(id: nat, m: Meta)
      modifies this`world, this`log, this`calls
      ensures Abs() == if id in live then S.SaveBehind(oracle, old(Abs()), m) else S.Save(oracle, old(Abs()), m)
    {
      hide Valid, Observe;
      var a := Ask();
      if id in live {
        Emit(if a.wrote then SavedBehind(m) else SaveLost(m));
      } else {
        Emit(if a.wrote then Saved(m) else SaveLost(m));
      }
    }

    method Admit(id: nat, m: S.GoodMeta)
      modifies this
      ensures var s := old(Abs());
        Abs() == S.Schedule(oracle, S.Save(oracle, s, m).(queue := s.queue + [id], live := s.live[id := S.NewJob(m)]))
    {
      hide Valid, S.Save, S.Schedule;
      SaveMeta(m);
      queue := queue + [id];
      live := live[id := S.NewJob(m)];
      Schedule();
    }

    method OnCancel(id: nat)
      modifies this
      ensures Abs() == S.OnCancel(oracle, old(Abs()), id)
      ensures old(Consistent()) ==> Consistent() && (id in live ==> live[id].stop != S.NoStop)
    {
      hide Valid, S.Save, S.RequestStop, H.Consistent, Terminal, S.RemoveAll;
      if Consistent() {
        H.AfterCancel(oracle, Abs(), id);
      }
      if id !in live {
        if id in world.disk && !Terminal(world.disk[id].state) {
          var m := world.disk[id];
          var a := Ask();
          SaveMeta(m.(state := Cancelled, error := "cancelled", finishedMs := a.realtime));
        }
        return;
      }
      if live[id].meta.state.Queued? {
        var m: Meta := live[id].meta;
        var a := Ask();
        SaveMeta(m.(state := Cancelled, error := "cancelled before start", finishedMs := a.realtime));
        queue := S.RemoveAll(queue, id);
        live := live - {id};
        return;
      }
      RequestStop(id, S.StopCancelled);
    }

    /** The SHUTDOWN line. */
    method Shutdown(order: seq<nat>)
      requires Consistent() && booted && forall id :: id in live ==> id in order
      modifies this
      ensures Abs() == S.Shutdown(oracle, old(Abs()), order)
      ensures Consistent() && shuttingDown && queue == [] && forall id :: id in live ==> live[id].stop != S.NoStop
    {
      hide Valid, S.OnCancel, S.RequestStop, H.Consistent;
      H.AfterShutdown(oracle, Abs(), order);
      shuttingDown := true;
      ghost var s := Abs();
      var queued := queue;
      for i := 0 to |queued|
        invariant Abs() == S.CancelAll(oracle, s, queued[..i])
      {
        assert queued[..i + 1][..i] == queued[..i];
        OnCancel(queued[i]);
      }
      assert queued[..|queued|] == queued;
      ghost var t := Abs();
      for i := 0 to |order|
        invariant Abs() == S.StopAll(oracle, t, order[..i])
      {
        assert order[..i + 1][..i] == order[..i];
        var id := order[i];
        if id in live && (live[id].meta.state.Running? || live[id].meta.state.Starting?) {
          RequestStop(id, S.StopShutdown);
        }
      }
      assert order[..|order|] == order;
    }

    method HandleLine(line: string, order: seq<nat>)
      requires Consistent() && booted && forall id :: id in live ==> id in order
      modifies this
      ensures Abs() == S.HandleLine(oracle, old(Abs()), line, order)
      ensures Consistent() && booted
    {
      hide Valid, S.Shutdown, S.Enqueue, S.OnCancel, ParsedU64, H.Consistent;
      H.AfterLine(oracle, Abs(), line, order);
      if line == "SHUTDOWN" {
        Shutdown(order);
      } else if "SUBMIT " <= line {
        var id := ParseU64(line[7..]);
        if id.Some? {
          Enqueue(id.value);
        }
      } else if "CANCEL " <= line {
        var id := ParseU64(line[7..]);
        if id.Some? {
          OnCancel(id.value);
        }
      }
    }

    // ---------- timers ----------

    method OnDeadline(id: nat)
      requires Consistent()
      modifies this
      ensures Abs() == S.OnDeadline(oracle, old(Abs()), id)
      ensures Consistent() && (old(id in live && live[id].deadline) ==> id in live && live[id].stop != S.NoStop)
    {
      hide Valid, S.RequestStop, H.Consistent;
      H.AfterDeadline(oracle, Abs(), id);
      if id !in live || !live[id].deadline {
        return;
      }
      RequestStop(id, S.StopTimedOut);
    }

    method OnTick(order: seq<nat>)
      requires Consistent() && forall id :: id in live ==> id in order
      modifies this
      ensures Abs() == S.OnTick(oracle, old(Abs()), order)
      ensures Consistent() && forall id :: id in live ==> !H.Overdue(live[id], clock)
    {
      hide Valid, S.SignalJob, H.Consistent, H.Overdue;
      H.AfterTick(oracle, Abs(), order);
      MonoMs();
      ghost var s := Abs();
      for i := 0 to |order|
        invariant Abs() == S.Escalate(s, order[..i])
      {
        assert order[..i + 1][..i] == order[..i];
        var id := order[i];
        if id in live {
          var job := live[id];
          if job.stop != S.NoStop && !job.escalated && job.stopSentMs != 0 && clock - job.stopSentMs > 1000 {
            SignalJob(id, SIGKILL);
            live := live[id := job.(escalated := true)];
          }
        }
      }
      assert order[..|order|] == order;
    }

    // ---------- restart ----------

    /** The loop of recover over the recorded processes of one job. */
    method KillLeftovers(id: nat, procs: seq<ProcRef>)
      modifies this`world, this`log, this`calls
      ensures Abs() == S.KillLeftovers(oracle, old(Abs()), id, procs)
    {
      hide Valid, S.Emit;
      for i := 0 to |procs|
        invariant Abs() == S.KillLeftovers(oracle, old(Abs()), id, procs[..i])
      {
        assert procs[..i + 1][..i] == procs[..i];
        var pr := procs[i];
        var a := Ask();
        if pr.start != 0 && a.starttime == Some(pr.start) {
          Emit(LeftoverKilled(id, pr.pid, pr.start, pr.start));
        }
      }
      assert procs[..|procs|] == procs;
    }

    method RecoverOne(id: nat)
      modifies this
      ensures Abs() == S.RecoverOne(oracle, old(Abs()), id)
    {
      hide Valid, S.Save, S.KillLeftovers, S.Enqueue, ParsedProcs;
      if id !in world.disk {
        return;
      }
      var m := world.disk[id];
      if m.state.Running? || m.state.Starting? || m.state.Persisting? {
        var procs := ParseProcs(m.procs);
        KillLeftovers(id, procs);
        var a := Ask();
        SaveMeta(m.(state := Failed, error := S.RESTARTED, finishedMs := a.realtime));
        return;
      }
      if m.state.Submitted? || m.state.Queued? {
        Enqueue(id);
      }
    }

    method Recover(ids: seq<nat>)
      requires Consistent() && live == map[] && !booted && !shuttingDown
      requires Distinct(ids) && forall id :: id in world.disk ==> id in ids
      modifies this
      ensures Abs() == S.Recover(oracle, old(Abs()), ids)
      ensures Consistent() && booted && forall id :: id in world.disk ==> id in live || Keeps.Over(world, id)
    {
      hide Valid, S.RecoverOne, H.Consistent, Keeps.Over;
      H.AfterRecover(oracle, Abs(), ids);
      for i := 0 to |ids|
        invariant Abs() == S.RecoverAll(oracle, old(Abs()), ids[..i])
      {
        assert ids[..i + 1][..i] == ids[..i];
        RecoverOne(ids[i]);
      }
      assert ids[..|ids|] == ids;
      booted := true;
    }
  }
}
