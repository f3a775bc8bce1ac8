/** The joint invariant of the controller's five structures, its log and the records on disk. */
module ControllerInv {
  import opened Base
  import opened MetaCodec
  import opened Procs
  import opened Validate
  import opened History
  import opened ControllerSpec

  // ---------- the invariant ----------

  /** The rounds of stop signals on the log are those the job remembers. */
  ghost predicate StopsMatch(w: World, id: nat, job: LiveJob) {
    && id in w.stops
    && match w.stops[id] {
         case NoStops => job.stop.NoStop? && !job.escalated
         case Termed(at) => !job.stop.NoStop? && !job.escalated && job.stopSentMs == at
         case KilledToo => !job.stop.NoStop? && job.escalated
       }
  }

  /** pid_owner knows every process of the job, and exactly those not reaped are children of the controller. */
  ghost predicate Tracked(s: State, id: nat, ps: seq<ProcRef>) {
    && (forall i :: 0 <= i < |ps| ==> ps[i].pid in s.pidOwner && s.pidOwner[ps[i].pid] == id)
    && (forall i :: 0 <= i < |ps| && !ps[i].reaped ==>
          ps[i].pid in s.world.children && s.world.children[ps[i].pid] == id)
    && (forall i :: 0 <= i < |ps| && ps[i].reaped ==> ps[i].pid !in s.world.children)
    && (forall i, j :: 0 <= i < j < |ps| ==> ps[i].pid != ps[j].pid)
  }

  ghost predicate QueuedJob(job: LiveJob) {
    job == NewJob(job.meta)
  }

  /** One process for each slice, all of them listed in the record, and a shared region of that many slots. */
  ghost predicate Shaped(m: Meta, ps: seq<ProcRef>, shm: Option<SlotCount>) {
    && |ps| == |SlicesOf(m)| && m.procs == Formatted(ps)
    && (forall i :: 0 <= i < |ps| ==> ps[i].pid > 0)
    && shm == (if m.op.OpExec? then None else Some(|SlicesOf(m)|))
  }

  ghost predicate RunningJob(s: State, id: nat, job: LiveJob) {
    && job.meta.state.Running? && job.usesSlot && id in s.world.looped
    && Shaped(job.meta, job.procs, job.shm)
    && StopsMatch(s.world, id, job)
    && (s.newPids ==> Tracked(s, id, job.procs))
  }

  /**
   * Unless one of its saves was lost, the record on disk is the record in memory, or says cancelled because it was
   * replaced behind the job's back.
   */
  ghost predicate OnDisk(w: World, id: nat, m: Meta) {
    && id in w.disk
    && (id !in w.lost && id !in w.behind ==> w.disk[id] == m)
    && (id !in w.lost && id in w.behind ==> w.disk[id].state.Cancelled?)
    && (m.state.Queued? && id !in w.lost ==> id !in w.behind)
  }

  ghost predicate JobInv(s: State, id: nat)
    requires id in s.live
  {
    var job := s.live[id];
    && job.meta.id == id && !job.finished && OnDisk(s.world, id, job.meta)
    && (if job.meta.state.Queued? then QueuedJob(job) else RunningJob(s, id, job))
    && (job.meta.state.Queued? <==> id in s.queue)
  }

  function Slots(live: map<nat, LiveJob>): set<nat> {
    set id | id in live && live[id].usesSlot
  }

  /** slots_used is exact and within bounds. */
  ghost predicate SlotsExact(slotsUsed: int, slotsMax: nat, live: map<nat, LiveJob>) {
    slotsUsed == |Slots(live)| <= slotsMax
  }

  /** pid_owner names live jobs that have the process. */
  ghost predicate OwnersLive(pidOwner: map<int32, nat>, live: map<nat, LiveJob>) {
    forall pid :: pid in pidOwner ==> pidOwner[pid] in live && pid in Pids(live[pidOwner[pid]].procs)
  }

  /** The queue has no duplicates and holds live jobs. */
  ghost predicate QueueLive(queue: seq<nat>, ids: set<nat>) {
    Distinct(queue) && forall q :: q in queue ==> q in ids
  }

  /** A record whose job is not live has not been started or is over. */
  ghost predicate AtRest(disk: map<nat, Meta>, id: nat) {
    id in disk ==> disk[id].state.Submitted? || Terminal(disk[id].state)
  }

  ghost predicate OthersAtRest(booted: bool, w: World, ids: set<nat>) {
    booted ==> forall id :: id !in ids && id !in w.lost ==> AtRest(w.disk, id)
  }

  ghost predicate WorldInv(s: State) {
    && LoopsAreRecorded(s.world) && FiledById(s.world)
    && s.world.ok && (s.newPids ==> s.world.aimed)
  }

  ghost predicate Shared(s: State) {
    && WorldInv(s)
    && QueueLive(s.queue, s.live.Keys)
    && SlotsExact(s.slotsUsed, s.slotsMax, s.live)
    && OwnersLive(s.pidOwner, s.live)
    && (s.newPids ==> s.world.children.Keys <= s.pidOwner.Keys)
    && OthersAtRest(s.booted, s.world, s.live.Keys)
  }

  ghost predicate Core(s: State) {
    Shared(s) && forall id :: id in s.live ==> JobInv(s, id)
  }

  /** A job between events: it still waits for a process, and it has been told to stop if a process went wrong. */
  ghost predicate Waiting(job: LiveJob) {
    !AllReaped(job.procs) && (AnyBad(job.procs) ==> !job.stop.NoStop?)
  }

  /** Every job that is not queued is waiting. */
  ghost predicate Busy(s: State) {
    forall id :: id in s.live && !s.live[id].meta.state.Queued? ==> Waiting(s.live[id])
  }

  /** Once SHUTDOWN has been handled nothing is queued and every job has been told to stop. */
  ghost predicate Draining(s: State) {
    s.shuttingDown ==> s.queue == [] && forall id :: id in s.live ==> !s.live[id].stop.NoStop?
  }

  ghost predicate Inv(s: State) {
    Core(s) && Busy(s) && Draining(s)
  }

  // ---------- framing ----------

  /** What a job relies on. */
  ghost predicate Framed(s: State, t: State, id: nat)
    requires id in s.live
  {
    && id in t.live && t.live[id] == s.live[id]
    && (id in t.queue <==> id in s.queue)
    && (id in s.world.lost ==> id in t.world.lost) && (id in t.world.behind <==> id in s.world.behind)
    && (t.newPids ==> s.newPids)
    && (id in s.world.disk ==> id in t.world.disk && t.world.disk[id] == s.world.disk[id])
    && (id in s.world.looped ==> id in t.world.looped)
    && (id in s.world.stops ==> id in t.world.stops && t.world.stops[id] == s.world.stops[id])
    && (t.newPids ==> forall pid :: pid in Pids(s.live[id].procs) ==> SamePid(s, t, pid))
  }

  ghost predicate SamePid(s: State, t: State, pid: int32) {
    && (pid in s.pidOwner ==> pid in t.pidOwner && t.pidOwner[pid] == s.pidOwner[pid])
    && (pid in s.world.children <==> pid in t.world.children)
    && (pid in s.world.children ==> t.world.children[pid] == s.world.children[pid])
  }

  lemma FramedKeeps(s: State, t: State, id: nat)
    requires id in s.live && JobInv(s, id) && Framed(s, t, id)
    ensures JobInv(t, id)
  {
    hide SlicesOf, Shaped, AllReaped;
    var job := s.live[id];
    if !job.meta.state.Queued? && t.newPids {
      assert forall i :: 0 <= i < |job.procs| ==> SamePid(s, t, job.procs[i].pid);
    }
  }

  /** Jobs own disjoint sets of processes. */
  lemma OwnPids(s: State, a: nat, b: nat, pid: int32)
    requires a in s.live && b in s.live && a != b && JobInv(s, a) && JobInv(s, b) && s.newPids
    requires pid in Pids(s.live[a].procs)
    ensures pid in s.pidOwner && s.pidOwner[pid] == a && pid !in Pids(s.live[b].procs)
  {
    hide SlicesOf, Shaped, StopsMatch, OnDisk;
  }
}
