/**
 * The controller's handlers as functions from state to state. Everything the kernel or the file system decides
 * (whether a save works, what fork returns, the clocks) comes from an oracle that is asked once for each call.
 */
module ControllerSpec {
  import opened Base
  import opened MetaCodec
  import opened Procs
  import opened Text
  import opened Validate
  import opened Worker
  import opened History
  import R = Results
  import P = Protocol

  // ---------- what the environment answers ----------

  type SlotArray = s: seq<ChunkResult> | |s| == P.MAX_WORKERS witness seq(P.MAX_WORKERS, i => EMPTY_SLOT)
  type SlotCount = n: nat | 1 <= n <= P.MAX_WORKERS witness 1
  type Pid = p: int32 | p > 0 witness 1

  /** A child that fork, setpgid and proc_starttime describe. */
  datatype Child = Child(pid: Pid, start: uint64, grouped: bool)

  /** What launch_job meets; `inspect` is the size of a regular input, `children` the forks before one fails. */
  datatype Launching = Launching(inspect: Option<uint64>, logOk: bool, mapsOk: bool, timerOk: bool,
                                 children: seq<Child>)

  datatype Answer = Answer(
    wrote: bool,               // the record was replaced
    realtime: int64,           // realtime_ms
    elapsed: nat,              // milliseconds on the monotonic clock since it was last read
    text: string,              // the text of an error
    launch: Launching,
    done: nat, slots: SlotArray, outputSize: Option<nat>,  // the shared region and `output` when results_ok looks
    outputWritten: bool,       // atomic_write_file of `output`
    starttime: Option<uint64>) // proc_starttime

  type Oracle = nat -> Answer

  // ---------- state ----------

  datatype Stop = NoStop | StopFailed | StopTimedOut | StopCancelled | StopShutdown

  /** A record that enqueue accepted. */
  type GoodMeta = m: Meta | Valid(m) witness BLANK.(op := OpExec, execPath := "/")

  /** LiveJob; `shm` is nchunks of the shared region if there is one. */
  datatype LiveJob = LiveJob(meta: GoodMeta, procs: seq<ProcRef>, shm: Option<SlotCount>, deadline: bool,
                             usesSlot: bool,
                             finished: bool, escalated: bool, stop: Stop, stopSentMs: nat)

  /** Controller, with the log of what it did, and the clock and the number of calls made so far. */
  datatype State = State(
    slotsMax: nat, slotsUsed: int, shuttingDown: bool,
    live: map<nat, LiveJob>, queue: seq<nat>, pidOwner: map<int32, nat>,
    booted: bool,          // recover is done
    clock: nat, calls: nat,
    log: seq<Effect>, world: World,
    newPids: bool)         // no fork returned a pid that pid_owner still held

  function Boot(slotsMax: nat, log: seq<Effect>, clock: nat, calls: nat, newPids: bool): State {
    var log' := log + [Restarted];
    State(slotsMax, 0, false, map[], [], map[], false, clock, calls, log', Replay(log'), newPids)
  }

  function Emit(s: State, e: Effect): State {
    s.(log := s.log + [e], world := Observe(s.world, e))
  }

  function NewJob(m: GoodMeta): LiveJob {
    LiveJob(m, [], None, false, false, false, false, NoStop, 0)
  }

  /** save_meta. */
  function Save(o: Oracle, s: State, m: Meta): (t: State)
    ensures t == s.(calls := t.calls, log := t.log, world := t.world)
  {
    Emit(s.(calls := s.calls + 1), if o(s.calls).wrote then Saved(m) else SaveLost(m))
  }

  /** The same call, for a record of a job that is live and knows nothing of it. */
  function SaveBehind(o: Oracle, s: State, m: Meta): State {
    Emit(s.(calls := s.calls + 1), if o(s.calls).wrote then SavedBehind(m) else SaveLost(m))
  }

  function RemoveAll(q: seq<nat>, id: nat): (r: seq<nat>)
    ensures |r| <= |q| && (id in q ==> |r| < |q|)
    ensures forall x :: x in r <==> x in q && x != id
    ensures Distinct(q) ==> Distinct(r)
  {
    if q == [] then []
    else
      var r := RemoveAll(q[..|q| - 1], id);
      assert Distinct(q) ==> q[|q| - 1] !in q[..|q| - 1];
      if q[|q| - 1] == id then r else r + [q[|q| - 1]]
  }

  /** Taking `id` out leaves the others in their order. */
  lemma {:induction false} RemoveAllKeepsOrder(a: seq<nat>, b: seq<nat>, id: nat)
    ensures RemoveAll(a + b, id) == RemoveAll(a, id) + RemoveAll(b, id)
    decreases |b|
  {
    if b == [] {
      assert a + b == a;
    } else {
      var front := b[..|b| - 1];
      assert (a + b)[..|a + b| - 1] == a + front;
      RemoveAllKeepsOrder(a, front, id);
    }
  }

  // ---------- stopping ----------

  function Signals(s: State, id: nat, ps: seq<ProcRef>, sig: Signo): (t: State)
    ensures t == s.(log := t.log, world := t.world)
  {
    if ps == [] then s
    else
      var t := Signals(s, id, ps[..|ps| - 1], sig);
      var p := ps[|ps| - 1];
      if p.reaped || p.pid <= 0 then t else Emit(t, Signalled(id, p.pid, sig))
  }

  /** signal_job. */
  function SignalJob(s: State, id: nat, sig: Signo): State
    requires id in s.live
  {
    Signals(Emit(s, StopRound(id, sig, s.clock)), id, s.live[id].procs, sig)
  }

  /** request_stop. */
  function RequestStop(o: Oracle, s: State, id: nat, reason: Stop): State
    requires id in s.live
  {
    var job := s.live[id];
    if job.stop != NoStop then s
    else
      var now := s.clock + o(s.calls).elapsed;
      SignalJob(s.(calls := s.calls + 1, clock := now, live := s.live[id := job.(stop := reason, stopSentMs := now)]),
                id, SIGTERM)
  }

  // ---------- the end of a job ----------

  function Pids(ps: seq<ProcRef>): set<int32> {
    set p | p in ps :: p.pid
  }

  /** release_runtime. */
  function Release(s: State, id: nat): State
    requires id in s.live
  {
    var job := s.live[id];
    s.(pidOwner := s.pidOwner - Pids(job.procs),
       slotsUsed := if job.usesSlot then s.slotsUsed - 1 else s.slotsUsed)
  }

  /** live.erase. */
  function Drop(s: State, id: nat): State {
    s.(live := s.live - {id})
  }

  function Hows(ps: seq<ProcRef>): (r: seq<WaitStatus>)
    ensures |r| == |ps| && forall i :: 0 <= i < |ps| ==> r[i] == ps[i].how
  {
    seq(|ps|, i requires 0 <= i < |ps| => ps[i].how)
  }

  /** What results_ok looks at. */
  function EvidenceOf(job: LiveJob, a: Answer): R.Evidence {
    R.Evidence(job.meta.op, Hows(job.procs),
               if job.shm.Some? then Some(R.Region(job.shm.value, a.done, a.slots)) else None,
               job.meta.bytes, a.outputSize, a.text)
  }

  function VerdictOf(job: LiveJob, a: Answer): R.Verdict {
    R.Judge(EvidenceOf(job, a))
  }

  function StopState(stop: Stop): JobState {
    match stop
    case StopTimedOut => TimedOut
    case StopCancelled | StopShutdown => Cancelled
    case _ => Failed
  }

  /** The record finalize saves when nothing goes wrong with the output. */
  function Judged(job: LiveJob, a: Answer): Meta {
    var m := job.meta.(exits := ExitsText(job.procs), finishedMs := a.realtime);
    match VerdictOf(job, a)
    case Rejected(why) =>
      var state := StopState(job.stop);
      m.(state := state, error := if why == "" then StateText(state) else why)
    case Good(body) =>
      m.(state := Completed, error := "",
         digest := if m.op in {OpSha256, OpCount} && body != "" then TrimNewlines(body) else m.digest)
  }

  /** The saves of finalize: `output` exists before the record says completed. */
  function Settle(o: Oracle, s: State, m: Meta, a: Answer, v: R.Verdict): State {
    if v.Good? && v.body != "" then
      var t := Save(o, s, m.(state := Persisting));
      if a.outputWritten then Save(o, Emit(t, OutputWritten(m.id, v.body)), m)
      else Save(o, t, m.(state := Failed, error := a.text))
    else Save(o, s, m)
  }

  /** finalize. */
  function Finalize(o: Oracle, s: State, id: nat): State {
    if id !in s.live || s.live[id].finished then s
    else
      var a := o(s.calls);
      var job := s.live[id];
      var t := Settle(o, s.(calls := s.calls + 1), Judged(job, a), a, VerdictOf(job, a));
      Drop(Release(t, id), id).(queue := RemoveAll(s.queue, id))
  }

  // ---------- reaping ----------

  function Mark(ps: seq<ProcRef>, pid: int32, how: WaitStatus): (r: seq<ProcRef>)
    ensures |r| == |ps|
    ensures forall i :: 0 <= i < |ps| ==> r[i] == if ps[i].pid == pid then ps[i].(reaped := true, how := how) else ps[i]
  {
    seq(|ps|, i requires 0 <= i < |ps| => if ps[i].pid == pid then ps[i].(reaped := true, how := how) else ps[i])
  }

  predicate AllReaped(ps: seq<ProcRef>) {
    forall i :: 0 <= i < |ps| ==> ps[i].reaped
  }

  predicate AnyBad(ps: seq<ProcRef>) {
    exists i :: 0 <= i < |ps| && ps[i].reaped && ps[i].how != Exited(0)
  }

  /** waitid, and note_reap. */
  function NoteReap(o: Oracle, s: State, pid: int32, how: WaitStatus): State {
    var s := Emit(s, Waited(pid));
    if pid !in s.pidOwner then s
    else
      var id := s.pidOwner[pid];
      if id !in s.live then s
      else
        var ps := Mark(s.live[id].procs, pid, how);
        var t := s.(live := s.live[id := s.live[id].(procs := ps)]);
        var u := if AnyBad(ps) && t.live[id].stop == NoStop then RequestStop(o, t, id, StopFailed) else t;
        if AllReaped(ps) then Finalize(o, u, id) else u
  }

  // ---------- launching ----------

  predicate Eligible(live: map<nat, LiveJob>, id: nat) {
    id in live && live[id].meta.state.Queued?
  }

  /** Whether `a` runs before `b`: higher priority first, then smaller id. */
  predicate Before(live: map<nat, LiveJob>, a: nat, b: nat)
    requires a in live && b in live
  {
    live[a].meta.priority > live[b].meta.priority || (live[a].meta.priority == live[b].meta.priority && a < b)
  }

  /** The scan of pick_next: the best of the queued jobs. */
  function Best(live: map<nat, LiveJob>, queue: seq<nat>): (r: Option<nat>)
    ensures r.Some? ==> r.value in queue && Eligible(live, r.value)
    ensures r.Some? ==> forall x :: x in queue && Eligible(live, x) && x != r.value ==> Before(live, r.value, x)
    ensures r.None? ==> forall x :: x in queue ==> !Eligible(live, x)
  {
    if queue == [] then None
    else
      var r := Best(live, queue[..|queue| - 1]);
      var cand := queue[|queue| - 1];
      if Eligible(live, cand) && (r.None? || Before(live, cand, r.value)) then Some(cand) else r
  }

  function Forks(s: State, id: nat, cs: seq<Child>): (t: State)
    ensures t == s.(log := t.log, world := t.world)
  {
    if cs == [] then s else Emit(Forks(s, id, cs[..|cs| - 1]), Forked(id, cs[|cs| - 1].pid))
  }

  function Aborts(s: State, cs: seq<Child>): (t: State)
    ensures t == s.(log := t.log, world := t.world)
  {
    if cs == [] then s else Emit(Aborts(s, cs[..|cs| - 1]), Aborted(cs[|cs| - 1].pid))
  }

  function Spawned(cs: seq<Child>): (r: seq<ProcRef>)
    ensures |r| == |cs|
    ensures forall i :: 0 <= i < |cs| ==> r[i] == ProcRef(cs[i].pid, cs[i].start, false, cs[i].grouped, NotReaped)
  {
    seq(|cs|, i requires 0 <= i < |cs| => ProcRef(cs[i].pid, cs[i].start, false, cs[i].grouped, NotReaped))
  }

  function Own(owner: map<int32, nat>, ps: seq<ProcRef>, id: nat): (r: map<int32, nat>)
    ensures forall pid :: pid in r <==> pid in owner || pid in Pids(ps)
    ensures forall pid :: pid in r ==> r[pid] == if pid in Pids(ps) then id else owner[pid]
  {
    map pid | pid in owner.Keys + Pids(ps) :: if pid in Pids(ps) then id else owner[pid]
  }

  /** fork returned pids that nobody uses: different from each other and from those pid_owner holds. */
  predicate FreshPids(owner: map<int32, nat>, cs: seq<Child>) {
    && (forall i :: 0 <= i < |cs| ==> cs[i].pid !in owner)
    && (forall i, j :: 0 <= i < j < |cs| ==> cs[i].pid != cs[j].pid)
  }

  /** launch_job. */
  function Launch(o: Oracle, s: State, id: nat): (t: State)
    ensures t.queue == s.queue && t.shuttingDown == s.shuttingDown
  {
    if id !in s.live then s
    else
      var a := o(s.calls);
      var env := a.launch;
      var t := s.(calls := s.calls + 1);
      var m := s.live[id].meta;
      if !m.op.OpExec? && env.inspect.None? then
        Drop(Release(Save(o, t, m.(error := a.text, state := Failed, finishedMs := a.realtime)), id), id)
      else
        var m := if m.op.OpExec? then m else m.(bytes := env.inspect.value);
        if !env.logOk || (!m.op.OpExec? && !env.mapsOk) then Drop(Save(o, t, m.(state := Failed, error := a.text)), id)
        else Spawn(o, t, id, m, a)
  }

  /** launch_job from the moment the log and the shared region exist. */
  function Spawn(o: Oracle, s: State, id: nat, m: GoodMeta, a: Answer): (t: State)
    requires id in s.live
    ensures t.queue == s.queue && t.shuttingDown == s.shuttingDown
  {
    ValidFitsTheRegion(m);
    hide Valid, SlicesOf, Formatted;
    var n: SlotCount := |SlicesOf(m)|;
    var cs := if |a.launch.children| < n then a.launch.children else a.launch.children[..n];
    var t := StartLoop(o, s, id, m, cs);
    var u := Forks(t, id, cs);
    var begun: Meta := m.(startedMs := a.realtime);
    if |cs| < n then
      Drop(Save(o, Aborts(u, cs), begun.(state := Failed, error := a.text, finishedMs := a.realtime)), id)
    else
      var running: Meta := begun.(state := Running, procs := Formatted(Spawned(cs)));
      StaysValid(m, running);
      SameSlices(m, running);
      Save(o, Started(u, id, running, cs, a.launch.timerOk), running)
  }

  /** The two ways out of the fork loop: a fork fails, or every worker is forked. */
  lemma SpawnEnds(o: Oracle, s: State, id: nat, m: GoodMeta, a: Answer) returns (cs: seq<Child>, last: Meta)
    requires id in s.live
    ensures var u := Forks(StartLoop(o, s, id, m, cs), id, cs);
      if last.state.Failed? then
        && last == m.(startedMs := a.realtime, state := Failed, error := a.text, finishedMs := a.realtime)
        && Spawn(o, s, id, m, a) == Drop(Save(o, Aborts(u, cs), last), id)
      else
        && last == m.(startedMs := a.realtime, state := Running, procs := Formatted(Spawned(cs)))
        && Valid(last) && |cs| == |SlicesOf(m)|
        && SlicesOf(last) == SlicesOf(m) && 1 <= |SlicesOf(m)| <= P.MAX_WORKERS
        && Spawn(o, s, id, m, a) == Save(o, Started(u, id, last, cs, a.launch.timerOk), last)
  {
    ValidFitsTheRegion(m);
    var n := |SlicesOf(m)|;
    cs := if |a.launch.children| < n then a.launch.children else a.launch.children[..n];
    var begun: Meta := m.(startedMs := a.realtime);
    var running: Meta := begun.(state := Running, procs := Formatted(Spawned(cs)));
    StaysValid(m, running);
    SameSlices(m, running);
    hide Valid, Save, StartLoop, Forks, Aborts, Started, Drop, SlicesOf, Formatted, Spawned;
    last := if |cs| < n then begun.(state := Failed, error := a.text, finishedMs := a.realtime) else running;
  }

  /** The save that precedes the first fork. */
  function StartLoop(o: Oracle, s: State, id: nat, m: GoodMeta, cs: seq<Child>): (t: State)
    ensures t == s.(calls := t.calls, log := t.log, world := t.world, newPids := t.newPids)
  {
    Emit(Save(o, s, m.(state := Starting)), ForkLoop(id)).(newPids := s.newPids && FreshPids(s.pidOwner, cs))
  }

  /** What launch_job records in memory once every worker is forked. */
  function Started(s: State, id: nat, m: GoodMeta, cs: seq<Child>, timerOk: bool): State
    requires id in s.live && 1 <= |SlicesOf(m)| <= P.MAX_WORKERS
  {
    var ps := Spawned(cs);
    var job := s.live[id].(meta := m, procs := ps, shm := if m.op.OpExec? then None else Some(|SlicesOf(m)|),
                           deadline := m.deadlineS > 0 && timerOk, usesSlot := true);
    s.(pidOwner := Own(s.pidOwner, ps, id), slotsUsed := s.slotsUsed + 1, live := s.live[id := job])
  }

  /** schedule. */
  function Schedule(o: Oracle, s: State): (t: State)
    ensures t.shuttingDown == s.shuttingDown
    decreases |s.queue|
  {
    if s.shuttingDown || s.slotsUsed >= s.slotsMax then s
    else
      var best := Best(s.live, s.queue);
      if best.None? then s
      else
        var t := s.(queue := RemoveAll(s.queue, best.value));
        Schedule(o, Launch(o, t, best.value))
  }

  // ---------- control lines ----------

  /** enqueue. load_meta succeeds when the disk has a readable record. */
  function Enqueue(o: Oracle, s: State, id: nat): (t: State)
    ensures t.shuttingDown == s.shuttingDown
  {
    if id !in s.world.disk then s
    else
      var a := o(s.calls);
      var t := s.(calls := s.calls + 1);
      var m := s.world.disk[id];
      InvalidHasProblem(m);
      StaysValid(m, m.(state := Queued));
      hide Valid, Problem, Observe, Terminal;
      if s.shuttingDown then
        if Terminal(m.state) then s
        else
          var m := m.(state := Cancelled, error := "controller is shutting down", finishedMs := a.realtime);
          if id in s.live then SaveBehind(o, t, m) else Save(o, t, m)
      else if id in s.live || Terminal(m.state) then s
      else if !Valid(m) then
        Save(o, t, m.(state := Failed, error := Problem(m).value, finishedMs := a.realtime))
      else
        var m: GoodMeta := m.(state := Queued);
        var u := Save(o, s, m);
        Schedule(o, u.(queue := s.queue + [id], live := s.live[id := NewJob(m)]))
  }

  /** on_cancel. */
  function OnCancel(o: Oracle, s: State, id: nat): State {
    var a := o(s.calls);
    var t := s.(calls := s.calls + 1);
    if id !in s.live then
      if id !in s.world.disk || Terminal(s.world.disk[id].state) then s
      else Save(o, t, s.world.disk[id].(state := Cancelled, error := "cancelled", finishedMs := a.realtime))
    else if s.live[id].meta.state.Queued? then
      var m := s.live[id].meta.(state := Cancelled, error := "cancelled before start", finishedMs := a.realtime);
      Drop(Save(o, t, m), id).(queue := RemoveAll(s.queue, id))
    else RequestStop(o, s, id, StopCancelled)
  }

  function CancelAll(o: Oracle, s: State, ids: seq<nat>): State {
    if ids == [] then s else OnCancel(o, CancelAll(o, s, ids[..|ids| - 1]), ids[|ids| - 1])
  }

  function StopAll(o: Oracle, s: State, ids: seq<nat>): State {
    if ids == [] then s
    else
      var t := StopAll(o, s, ids[..|ids| - 1]);
      var id := ids[|ids| - 1];
      if id in t.live && t.live[id].meta.state in {Running, Starting} then RequestStop(o, t, id, StopShutdown) else t
  }

  /** The SHUTDOWN line. `order` is the order in which the hash table yields the live jobs. */
  function Shutdown(o: Oracle, s: State, order: seq<nat>): State {
    StopAll(o, CancelAll(o, s.(shuttingDown := true), s.queue), order)
  }

  /** handle_line. */
  function HandleLine(o: Oracle, s: State, line: string, order: seq<nat>): State {
    if line == "SHUTDOWN" then Shutdown(o, s, order)
    else if "SUBMIT " <= line then
      match ParsedU64(line[7..]) { case Some(id) => Enqueue(o, s, id) case None => s }
    else if "CANCEL " <= line then
      match ParsedU64(line[7..]) { case Some(id) => OnCancel(o, s, id) case None => s }
    else s
  }

  // ---------- timers ----------

  /** on_deadline. */
  function OnDeadline(o: Oracle, s: State, id: nat): State {
    if id !in s.live || !s.live[id].deadline then s else RequestStop(o, s, id, StopTimedOut)
  }

  function Escalate(s: State, ids: seq<nat>): State {
    if ids == [] then s
    else
      var t := Escalate(s, ids[..|ids| - 1]);
      var id := ids[|ids| - 1];
      if id !in t.live then t
      else
        var job := t.live[id];
        if job.stop != NoStop && !job.escalated && job.stopSentMs != 0 && t.clock - job.stopSentMs > 1000 then
          var u := SignalJob(t, id, SIGKILL);
          u.(live := u.live[id := job.(escalated := true)])
        else t
  }

  /** on_tick. `order` is the order in which the hash table yields the live jobs. */
  function OnTick(o: Oracle, s: State, order: seq<nat>): State {
    Escalate(s.(calls := s.calls + 1, clock := s.clock + o(s.calls).elapsed), order)
  }

  // ---------- restart ----------

  function KillLeftovers(o: Oracle, s: State, id: nat, ps: seq<ProcRef>): (t: State)
    ensures t == s.(log := t.log, world := t.world, calls := t.calls)
  {
    if ps == [] then s
    else
      var t := KillLeftovers(o, s, id, ps[..|ps| - 1]);
      var p := ps[|ps| - 1];
      var a := o(t.calls);
      var u := t.(calls := t.calls + 1);
      if p.start != 0 && a.starttime == Some(p.start) then Emit(u, LeftoverKilled(id, p.pid, p.start, p.start)) else u
  }

  const RESTARTED: string := "controller restarted " + "while the job was " + "in progress"

  function RecoverOne(o: Oracle, s: State, id: nat): (t: State)
    ensures t.shuttingDown == s.shuttingDown
  {
    if id !in s.world.disk then s
    else
      var m := s.world.disk[id];
      if m.state in {Running, Starting, Persisting} then
        var t := KillLeftovers(o, s, id, ParsedProcs(m.procs));
        var a := o(t.calls);
        Save(o, t.(calls := t.calls + 1),
             m.(state := Failed, error := RESTARTED, finishedMs := a.realtime))
      else if m.state in {Submitted, Queued} then Enqueue(o, s, id)
      else s
  }

  function RecoverAll(o: Oracle, s: State, ids: seq<nat>): State {
    if ids == [] then s else RecoverOne(o, RecoverAll(o, s, ids[..|ids| - 1]), ids[|ids| - 1])
  }

  /** recover. `ids` is what list_job_ids returned. */
  function Recover(o: Oracle, s: State, ids: seq<nat>): State {
    RecoverAll(o, s, ids).(booted := true)
  }
}
