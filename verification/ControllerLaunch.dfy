/** Launching keeps the invariant, whatever fork, the file system and the saves do. */
module ControllerLaunch {
  import opened Base
  import opened MetaCodec
  import opened Procs
  import opened Validate
  import opened History
  import opened ControllerSpec
  import opened ControllerInv
  import opened ControllerKeeps
  import P = Protocol

  // ---------- a job that is dropped before it runs ----------

  /** What dropping a queued job changes. */
  ghost predicate Dropped(s: State, u: State, id: nat) {
    && u.live == s.live - {id} && u.queue == RemoveAll(s.queue, id)
    && u.slotsMax == s.slotsMax && u.slotsUsed == s.slotsUsed && u.pidOwner == s.pidOwner
    && u.shuttingDown == s.shuttingDown && u.booted == s.booted
    && SameElsewhere(s, u, id)
    && Over(u.world, id) && (u.newPids ==> u.world.children == s.world.children)
    && (u.world.loops == s.world.loops || u.world.loops == s.world.loops + [id])
  }

  /** Nothing is forgotten, and what concerns other jobs is as it was. */
  ghost predicate SameElsewhere(s: State, u: State, id: nat) {
    && (u.newPids ==> s.newPids) && u.world.behind == s.world.behind
    && s.world.lost <= u.world.lost <= s.world.lost + {id}
    && (forall x :: x != id ==> (x in u.world.disk <==> x in s.world.disk))
    && (forall x :: x != id && x in s.world.disk ==> u.world.disk[x] == s.world.disk[x])
    && s.world.looped <= u.world.looped
    && (forall x :: x != id && x in s.world.stops ==> x in u.world.stops && u.world.stops[x] == s.world.stops[x])
  }

  lemma DroppedKeepsCore(s: State, u: State, id: nat)
    requires Core(s) && id in s.live && s.live[id].meta.state.Queued? && WorldInv(u) && Dropped(s, u, id)
    ensures Core(u)
  {
    hide WorldInv, SlicesOf, Valid, StopsMatch, OnDisk, OwnersLive, SlotsExact, QueueLive, OthersAtRest, AllReaped,
         Over;
    forall x | x in u.live ensures JobInv(u, x) {
      assert JobInv(s, x);
      hide JobInv;
      FramedKeeps(s, u, x);
    }
    assert JobInv(s, id);
    assert s.live[id].procs == [] && !s.live[id].usesSlot;
    hide JobInv;
    DroppedKeepsMemory(s.pidOwner, s.live, id, s.slotsUsed, s.slotsMax);
    QueueAfterEnd(s.queue, s.live.Keys, id);
    assert u.live.Keys == s.live.Keys - {id};
    DroppedAtRest(s, u, id);
  }

  lemma DroppedKeepsMemory(owner: map<int32, nat>, live: map<nat, LiveJob>, id: nat, used: int, max: nat)
    requires OwnersLive(owner, live) && SlotsExact(used, max, live)
    requires id in live && live[id].procs == [] && !live[id].usesSlot
    ensures OwnersLive(owner, live - {id}) && SlotsExact(used, max, live - {id})
  {
    hide Valid;
    assert Slots(live - {id}) == Slots(live);
  }

  lemma DroppedAtRest(s: State, u: State, id: nat)
    requires Dropped(s, u, id) && OthersAtRest(s.booted, s.world, s.live.Keys)
    ensures OthersAtRest(u.booted, u.world, u.live.Keys)
  {
    hide Terminal, Valid;
  }

  lemma DroppedKeepsRest(s: State, u: State, id: nat)
    requires Dropped(s, u, id) && Busy(s)
    ensures Busy(u)
    ensures Draining(s) ==> Draining(u)
  {
    hide Valid, AllReaped, Over, SameElsewhere;
  }

  /** The record of a queued job may be replaced by a terminal one. */
  lemma DropSave(o: Oracle, s: State, t: State, id: nat, m: Meta)
    requires Core(s) && id in s.live && s.live[id].meta.state.Queued?
    requires t == s.(queue := RemoveAll(s.queue, id), calls := t.calls)
    requires m.id == id && Terminal(m.state) && !m.state.Completed?
    ensures var u := Drop(Save(o, t, m), id); Dropped(s, u, id) && Core(u)
  {
    hide Valid, Save, Core, WorldInv, Dropped, SavedTo;
    QueuedMaySave(s, t, id, m);
    SaveKeepsWorld(o, t, m);
    var u := Drop(Save(o, t, m), id);
    WorldSame(Save(o, t, m), u);
    DropIsDropped(s, t, Save(o, t, m), id, m);
    DroppedKeepsCore(s, u, id);
  }

  lemma QueuedMaySave(s: State, t: State, id: nat, m: Meta)
    requires Core(s) && id in s.live && s.live[id].meta.state.Queued? && t.world == s.world && t.newPids == s.newPids
    requires m.id == id && Terminal(m.state) && !m.state.Completed?
    ensures WorldInv(t) && MaySave(t.world, m) && id in s.world.disk
  {
    hide Valid, FiledById, LoopsAreRecorded, OwnersLive, SlotsExact, QueueLive, OthersAtRest;
    assert JobInv(s, id);
    hide WorldInv;
    WorldSame(s, t);
  }

  lemma DropIsDropped(s: State, t: State, y: State, id: nat, m: Meta)
    requires t == s.(queue := RemoveAll(s.queue, id), calls := t.calls)
    requires SavedTo(t, y, m) && m.id == id && Terminal(m.state) && id in s.world.disk
    ensures Dropped(s, Drop(y, id), id)
  {
    hide Valid;
  }

  // ---------- the fork loop ----------

  ghost function PidsOf(cs: seq<Child>): set<int32> {
    set c | c in cs :: c.pid
  }

  lemma SpawnedPids(cs: seq<Child>)
    ensures Pids(Spawned(cs)) == PidsOf(cs)
  {
    var r := Spawned(cs);
    forall p | p in PidsOf(cs) ensures p in Pids(r) {
      var i :| 0 <= i < |cs| && cs[i].pid == p;
      assert r[i] in r;
    }
    forall p | p in Pids(r) ensures p in PidsOf(cs) {
      var i :| 0 <= i < |r| && r[i].pid == p;
      assert cs[i] in cs;
    }
  }

  /** Every one of `pids` has become a child of job `id`. */
  ghost predicate Joined(a: map<int32, nat>, b: map<int32, nat>, pids: set<int32>, id: nat) {
    && b.Keys == a.Keys + pids
    && forall p :: p in b ==> b[p] == if p in pids then id else a[p]
  }

  lemma ForkKeepsWorld(s: State, id: nat, pid: int32)
    requires WorldInv(s) && id in s.world.looped && (s.newPids ==> pid !in s.world.children)
    ensures var t := Emit(s, Forked(id, pid));
      WorldInv(t) && t.world == s.world.(children := s.world.children[pid := id], aimed := t.world.aimed)
  {
    EmitKeepsWorld(s, Forked(id, pid));
    hide FiledById, LoopsAreRecorded;
  }

  lemma {:induction false} ForksKeepWorld(s: State, id: nat, cs: seq<Child>)
    requires WorldInv(s) && id in s.world.looped
    requires s.newPids ==> FreshPids(s.world.children, cs)
    ensures var t := Forks(s, id, cs);
      && WorldInv(t) && t.world == s.world.(children := t.world.children, aimed := t.world.aimed)
      && Joined(s.world.children, t.world.children, PidsOf(cs), id)
  {
    hide WorldInv, Emit;
    if cs == [] {
    } else {
      var front, last := cs[..|cs| - 1], cs[|cs| - 1];
      ForksKeepWorld(s, id, front);
      PidsGrow(cs);
      var t := Forks(s, id, front);
      if s.newPids {
        NotAmong(s.world.children, cs);
      }
      ForkKeepsWorld(t, id, last.pid);
    }
  }

  lemma PidsGrow(cs: seq<Child>)
    requires cs != []
    ensures PidsOf(cs) == PidsOf(cs[..|cs| - 1]) + {cs[|cs| - 1].pid}
  {
    assert cs == cs[..|cs| - 1] + [cs[|cs| - 1]];
  }

  lemma NotAmong(owner: map<int32, nat>, cs: seq<Child>)
    requires cs != [] && FreshPids(owner, cs)
    ensures cs[|cs| - 1].pid !in PidsOf(cs[..|cs| - 1]) && cs[|cs| - 1].pid !in owner
    ensures FreshPids(owner, cs[..|cs| - 1])
  {
  }

  lemma AbortKeepsWorld(s: State, pid: int32)
    requires WorldInv(s) && (s.newPids ==> pid in s.world.children)
    ensures var t := Emit(s, Aborted(pid));
      WorldInv(t) && t.world == s.world.(children := s.world.children - {pid}, aimed := t.world.aimed)
  {
    EmitKeepsWorld(s, Aborted(pid));
    hide FiledById, LoopsAreRecorded;
  }

  lemma {:induction false} AbortsKeepWorld(s: State, cs: seq<Child>)
    requires WorldInv(s)
    requires s.newPids ==> PidsOf(cs) <= s.world.children.Keys && FreshPids(map[], cs)
    ensures var t := Aborts(s, cs);
      && WorldInv(t) && t.world == s.world.(children := t.world.children, aimed := t.world.aimed)
      && t.world.children == s.world.children - PidsOf(cs)
  {
    hide WorldInv, Emit;
    if cs == [] {
    } else {
      var front, last := cs[..|cs| - 1], cs[|cs| - 1];
      PidsGrow(cs);
      if s.newPids {
        NotAmong(map[], cs);
      }
      AbortsKeepWorld(s, front);
      AbortKeepsWorld(Aborts(s, front), last.pid);
    }
  }

  /** Between the first fork and the last save: the record says starting and no stop signal has been sent. */
  ghost predicate Looping(s: State, u: State, id: nat) {
    && SameElsewhere(s, u, id) && id in u.world.looped
    && id in u.world.stops && u.world.stops[id].NoStops?
    && id in u.world.disk && (id !in u.world.lost ==> u.world.disk[id].state.Starting?)
    && u.world.loops == s.world.loops + [id]
  }

  lemma StartLoopKeeps(o: Oracle, s: State, t: State, id: nat, m: GoodMeta, cs: seq<Child>)
    requires Core(s) && !s.shuttingDown && id in s.live && s.live[id].meta.state.Queued?
    requires t == s.(queue := t.queue, calls := t.calls) && m.id == id
    ensures var u := StartLoop(o, t, id, m, cs);
      && WorldInv(u) && Looping(s, u, id) && u.world.children == s.world.children
      && u.newPids == (s.newPids && FreshPids(s.pidOwner, cs))
  {
    hide Valid, Core, WorldInv, FreshPids, Save, SavedTo, Looping, Rule, Aimed, Observe;
    var u := Save(o, t, m.(state := Starting));
    SaveStarting(o, s, t, id, m);
    LoopKeepsWorld(u, id);
    var v := Emit(u, ForkLoop(id));
    var x := v.(newPids := s.newPids && FreshPids(s.pidOwner, cs));
    NewPidsMayFall(v, x);
    LoopingAfter(s, t, u, x, id, m.(state := Starting));
  }

  lemma SaveStarting(o: Oracle, s: State, t: State, id: nat, m: GoodMeta)
    requires Core(s) && !s.shuttingDown && id in s.live && s.live[id].meta.state.Queued?
    requires t == s.(queue := t.queue, calls := t.calls) && m.id == id
    ensures var u := Save(o, t, m.(state := Starting));
      && WorldInv(u) && SavedTo(t, u, m.(state := Starting))
      && id in u.world.disk && (id !in u.world.lost ==> id !in u.world.looped && u.world.disk[id].state.Starting?)
  {
    hide Valid, LoopsAreRecorded, FiledById, Save, Core;
    QueuedIsRecorded(s, id);
    WorldSame(s, t);
    SaveKeepsWorld(o, t, m.(state := Starting));
  }

  lemma LoopingAfter(s: State, t: State, u: State, x: State, id: nat, m: Meta)
    requires t == s.(queue := t.queue, calls := t.calls) && SavedTo(t, u, m) && m.id == id && m.state.Starting?
    requires id in u.world.disk && (id !in u.world.lost ==> u.world.disk[id].state.Starting?)
    requires x.world == u.world.(looped := u.world.looped + {id}, loops := u.world.loops + [id],
                                 stops := u.world.stops[id := NoStops],
                                 outputs := x.world.outputs, ok := x.world.ok, aimed := x.world.aimed)
    requires x.newPids ==> s.newPids
    ensures Looping(s, x, id) && x.world.children == s.world.children
  {
    hide Valid;
  }

  lemma NewPidsMayFall(s: State, t: State)
    requires WorldInv(s) && t.world == s.world && (t.newPids ==> s.newPids)
    ensures WorldInv(t)
  {
  }

  lemma QueuedIsRecorded(s: State, id: nat)
    requires Core(s) && id in s.live && s.live[id].meta.state.Queued?
    ensures WorldInv(s) && (id !in s.world.lost ==> id !in s.world.behind)
    ensures id in s.world.disk && (id !in s.world.lost ==> s.world.disk[id].state.Queued? && id !in s.world.looped)
  {
    hide Valid, SlicesOf, AllReaped, StopsMatch, OwnersLive, SlotsExact, QueueLive, OthersAtRest, FiledById, Tracked;
    assert JobInv(s, id);
  }

  lemma LoopKeepsWorld(s: State, id: nat)
    requires WorldInv(s)
    requires id !in s.world.lost ==> id !in s.world.looped && id in s.world.disk && s.world.disk[id].state.Starting?
    ensures var t := Emit(s, ForkLoop(id));
      && WorldInv(t)
      && t.world == s.world.(looped := s.world.looped + {id}, loops := s.world.loops + [id],
                             stops := s.world.stops[id := NoStops],
                             outputs := s.world.outputs - {id})
  {
    EmitKeepsWorld(s, ForkLoop(id));
    hide FiledById, LoopsAreRecorded;
  }

  /** FreshPids with respect to pid_owner is FreshPids with respect to the children. */
  lemma FreshToKernel(s: State, cs: seq<Child>)
    requires Shared(s) && s.newPids && FreshPids(s.pidOwner, cs)
    ensures FreshPids(s.world.children, cs) && FreshPids(map[], cs)
    ensures PidsOf(cs) !! s.world.children.Keys && PidsOf(cs) !! s.pidOwner.Keys
  {
    hide WorldInv, QueueLive, SlotsExact, OwnersLive, OthersAtRest;
  }

  lemma SpawnFails(o: Oracle, s: State, t: State, id: nat, m: GoodMeta, cs: seq<Child>, last: Meta)
    requires Core(s) && !s.shuttingDown && id in s.live && s.live[id].meta.state.Queued?
    requires t == s.(queue := RemoveAll(s.queue, id), calls := t.calls) && m.id == id
    requires last.id == id && last.state.Failed?
    ensures var u := Drop(Save(o, Aborts(Forks(StartLoop(o, t, id, m, cs), id, cs), cs), last), id);
      Dropped(s, u, id) && Core(u)
  {
    hide Valid, FreshPids, Save, StartLoop, Forks, Aborts, WorldInv, Core, Looping, Dropped, SavedTo;
    StartLoopKeeps(o, s, t, id, m, cs);
    var v := StartLoop(o, t, id, m, cs);
    ForksThenAborts(s, v, id, cs);
    var x := Aborts(Forks(v, id, cs), cs);
    LoopingMaySave(s, x, last);
    SaveKeepsWorld(o, x, last);
    var u := Drop(Save(o, x, last), id);
    WorldSame(Save(o, x, last), u);
    FailureIsDropped(s, x, Save(o, x, last), id, last);
    DroppedKeepsCore(s, u, id);
  }

  lemma ForksOnly(s: State, v: State, id: nat, cs: seq<Child>)
    requires Core(s) && Looping(s, v, id) && WorldInv(v) && v.world.children == s.world.children
    requires v.newPids == (s.newPids && FreshPids(s.pidOwner, cs))
    ensures var x := Forks(v, id, cs);
      && WorldInv(x) && Looping(s, x, id) && Joined(s.world.children, x.world.children, PidsOf(cs), id)
  {
    hide Valid, FreshPids, Forks, WorldInv;
    if v.newPids {
      FreshToKernel(s, cs);
    }
    hide Core;
    ForksKeepWorld(v, id, cs);
  }

  /** A failed fork loop leaves the children as they were. */
  lemma ForksThenAborts(s: State, v: State, id: nat, cs: seq<Child>)
    requires Core(s) && Looping(s, v, id) && WorldInv(v) && v.world.children == s.world.children
    requires v.newPids == (s.newPids && FreshPids(s.pidOwner, cs))
    ensures var x := Aborts(Forks(v, id, cs), cs);
      && WorldInv(x) && Looping(s, x, id)
      && (x.newPids ==> x.world.children == s.world.children)
  {
    hide Valid, FreshPids, Forks, Aborts, WorldInv, Core, Looping, PidsOf;
    ForksOnly(s, v, id, cs);
    var w := Forks(v, id, cs);
    if v.newPids {
      FreshChildren(s, cs);
    }
    AbortsKeepWorld(w, cs);
    LoopingSame(s, w, Aborts(w, cs), id);
  }

  lemma FreshChildren(s: State, cs: seq<Child>)
    requires Core(s) && s.newPids && FreshPids(s.pidOwner, cs)
    ensures FreshPids(map[], cs) && PidsOf(cs) !! s.world.children.Keys
  {
    hide Valid, FreshPids, WorldInv, JobInv;
    FreshToKernel(s, cs);
  }

  lemma LoopingSame(s: State, w: State, x: State, id: nat)
    requires Looping(s, w, id) && x.newPids == w.newPids
    requires x.world == w.world.(children := x.world.children, aimed := x.world.aimed)
    ensures Looping(s, x, id)
  {
    hide Valid;
  }

  lemma LoopingMaySave(s: State, x: State, last: Meta)
    requires Looping(s, x, last.id) && Rank(last.state) >= 4 && !last.state.Completed?
    ensures MaySave(x.world, last)
  {
    hide Valid;
  }

  lemma FailureIsDropped(s: State, x: State, y: State, id: nat, last: Meta)
    requires Looping(s, x, id) && SavedTo(x, y, last) && last.id == id && last.state.Failed?
    requires x == s.(queue := RemoveAll(s.queue, id), calls := x.calls, log := x.log, world := x.world,
      newPids := x.newPids)
    requires x.newPids ==> x.world.children == s.world.children
    ensures Dropped(s, Drop(y, id), id)
  {
    hide Valid;
  }

  // ---------- a job that runs ----------

  /** What a successful launch changes. */
  ghost predicate Launched(s: State, u: State, id: nat, cs: seq<Child>) {
    && id in u.live && u.live == s.live[id := u.live[id]] && NewlyRunning(u.live[id], id, cs)
    && u.queue == RemoveAll(s.queue, id) && u.slotsUsed == s.slotsUsed + 1
    && u.pidOwner == Own(s.pidOwner, Spawned(cs), id)
    && u.slotsMax == s.slotsMax && u.shuttingDown == s.shuttingDown && u.booted == s.booted
    && SameElsewhere(s, u, id)
    && (u.newPids ==> FreshPids(s.pidOwner, cs) && Joined(s.world.children, u.world.children, PidsOf(cs), id))
    && id in u.world.looped && id in u.world.stops && u.world.stops[id].NoStops?
    && id in u.world.disk && (id !in u.world.lost ==> u.world.disk[id] == u.live[id].meta && id !in u.world.behind)
    && u.world.loops == s.world.loops + [id]
  }

  /** A job that has just been launched on the children `cs`. */
  ghost predicate NewlyRunning(job: LiveJob, id: nat, cs: seq<Child>) {
    && job.meta.id == id && job.meta.state.Running? && job.usesSlot && !job.finished && !job.escalated &&
      job.stop.NoStop?
    && job.procs == Spawned(cs) && |cs| > 0 && Shaped(job.meta, job.procs, job.shm)
  }

  lemma LaunchedKeepsCore(s: State, u: State, id: nat, cs: seq<Child>)
    requires Core(s) && id in s.live && s.live[id].meta.state.Queued? && WorldInv(u) && Launched(s, u, id, cs)
    requires s.slotsUsed < s.slotsMax
    ensures Core(u)
  {
    hide Valid, WorldInv, Launched, JobInv, Shared;
    LaunchedKeepsShared(s, u, id, cs);
    forall x | x in u.live ensures JobInv(u, x) {
      LaunchedKeepsJob(s, u, id, cs, x);
    }
  }

  lemma LaunchedKeepsShared(s: State, u: State, id: nat, cs: seq<Child>)
    requires Core(s) && id in s.live && s.live[id].meta.state.Queued? && WorldInv(u) && Launched(s, u, id, cs)
    requires s.slotsUsed < s.slotsMax
    ensures Shared(u)
  {
    hide Valid, WorldInv, OwnersLive, SlotsExact, QueueLive, OthersAtRest, Own, NewlyRunning, Launched, JobInv, Core;
    NothingYet(s, id);
    LaunchedMemory(s, u, id, cs);
    SlotsAfterLaunch(s.live, id, u.live[id], s.slotsUsed, s.slotsMax);
    OwnersAfterLaunch(s.pidOwner, s.live, id, u.live[id]);
    QueueAfterEnd(s.queue, s.live.Keys, id);
    QueueGrows(u.queue, s.live.Keys - {id}, u.live.Keys);
    LaunchedAtRest(s, u, id, cs);
    LaunchedChildren(s, u, id, cs);
  }

  lemma LaunchedMemory(s: State, u: State, id: nat, cs: seq<Child>)
    requires Launched(s, u, id, cs)
    ensures id in u.live && u.live == s.live[id := u.live[id]] && u.live[id].usesSlot
    ensures u.pidOwner == Own(s.pidOwner, u.live[id].procs, id)
    ensures u.queue == RemoveAll(s.queue, id) && u.slotsUsed == s.slotsUsed + 1 && u.slotsMax == s.slotsMax
  {
    hide Valid, Own, SameElsewhere, Joined, FreshPids, SlicesOf;
  }

  lemma NothingYet(s: State, id: nat)
    requires Core(s) && id in s.live && s.live[id].meta.state.Queued?
    ensures Shared(s) && s.live[id] == NewJob(s.live[id].meta)
  {
    hide Valid, Shared, OnDisk;
    assert JobInv(s, id);
  }

  lemma QueueGrows(queue: seq<nat>, a: set<nat>, b: set<nat>)
    requires QueueLive(queue, a) && a <= b
    ensures QueueLive(queue, b)
  {
  }

  lemma SlotsAfterLaunch(live: map<nat, LiveJob>, id: nat, job: LiveJob, used: int, max: nat)
    requires SlotsExact(used, max, live) && used < max && id in live && !live[id].usesSlot && job.usesSlot
    ensures SlotsExact(used + 1, max, live[id := job])
  {
    hide Valid;
    assert Slots(live[id := job]) == Slots(live) + {id};
  }

  lemma OwnersAfterLaunch(owner: map<int32, nat>, live: map<nat, LiveJob>, id: nat, job: LiveJob)
    requires OwnersLive(owner, live) && id in live && live[id].procs == []
    ensures OwnersLive(Own(owner, job.procs, id), live[id := job])
  {
    hide Valid;
  }

  lemma LaunchedAtRest(s: State, u: State, id: nat, cs: seq<Child>)
    requires Launched(s, u, id, cs) && OthersAtRest(s.booted, s.world, s.live.Keys)
    ensures OthersAtRest(u.booted, u.world, u.live.Keys)
  {
    hide Terminal, Valid, NewlyRunning, Own, FreshPids, Joined;
  }

  lemma LaunchedChildren(s: State, u: State, id: nat, cs: seq<Child>)
    requires Launched(s, u, id, cs) && (s.newPids ==> s.world.children.Keys <= s.pidOwner.Keys)
    ensures u.newPids ==> u.world.children.Keys <= u.pidOwner.Keys
  {
    hide Terminal, Valid, NewlyRunning, FreshPids;
    SpawnedPids(cs);
  }

  lemma LaunchedKeepsJob(s: State, u: State, id: nat, cs: seq<Child>, x: nat)
    requires Core(s) && id in s.live && s.live[id].meta.state.Queued? && Launched(s, u, id, cs) && x in u.live
    ensures JobInv(u, x)
  {
    hide Valid, WorldInv, SlicesOf, SlotsExact, QueueLive, OthersAtRest, AllReaped, Own, Joined, FreshPids;
    if x == id {
      if u.newPids {
        NewlyTracked(s, u, id, cs);
      }
      hide Tracked;
    } else {
      assert JobInv(s, x);
      hide OwnersLive;
      if u.newPids {
        forall pid | pid in Pids(s.live[x].procs) ensures SamePid(s, u, pid) {
          OthersKeepPids(s, u, id, cs, x, pid);
        }
      }
      hide JobInv;
      FramedKeeps(s, u, x);
    }
  }

  lemma NewlyTracked(s: State, u: State, id: nat, cs: seq<Child>)
    requires Launched(s, u, id, cs) && u.newPids
    ensures Tracked(u, id, Spawned(cs))
  {
    hide Valid, SlicesOf, SameElsewhere, NewlyRunning, Over;
    TrackedBy(s.pidOwner, u.pidOwner, s.world.children, u.world.children, id, cs);
  }

  lemma TrackedBy(owner: map<int32, nat>, owner': map<int32, nat>, a: map<int32, nat>, b: map<int32, nat>, id: nat,
                  cs: seq<Child>)
    requires FreshPids(owner, cs) && owner' == Own(owner, Spawned(cs), id) && Joined(a, b, PidsOf(cs), id)
    ensures forall i :: 0 <= i < |cs| ==> cs[i].pid in owner' && owner'[cs[i].pid] == id
    ensures forall i :: 0 <= i < |cs| ==> cs[i].pid in b && b[cs[i].pid] == id
    ensures forall i, j :: 0 <= i < j < |cs| ==> cs[i].pid != cs[j].pid
  {
    SpawnedPids(cs);
    forall i | 0 <= i < |cs| ensures cs[i].pid in PidsOf(cs) {
      assert cs[i] in cs;
    }
  }

  lemma OthersKeepPids(s: State, u: State, id: nat, cs: seq<Child>, x: nat, pid: int32)
    requires Launched(s, u, id, cs) && u.newPids && x in s.live && JobInv(s, x) && pid in Pids(s.live[x].procs)
    ensures SamePid(s, u, pid)
  {
    hide Valid, SlicesOf, StopsMatch, OnDisk, NewlyRunning;
    SpawnedPids(cs);
    assert pid in s.pidOwner;
    assert pid !in PidsOf(cs);
  }

  lemma LaunchedKeepsRest(s: State, u: State, id: nat, cs: seq<Child>)
    requires Launched(s, u, id, cs) && Busy(s) && !s.shuttingDown
    ensures Busy(u) && Draining(u)
  {
    hide Valid, SlicesOf, SameElsewhere, Own, Joined, FreshPids;
    forall x | x in u.live && !u.live[x].meta.state.Queued? ensures Waiting(u.live[x]) {
      if x == id {
        assert !u.live[x].procs[0].reaped;
      }
    }
  }

  lemma SpawnSucceeds(o: Oracle, s: State, t: State, id: nat, m: GoodMeta, m': GoodMeta, cs: seq<Child>, timerOk: bool)
    requires Core(s) && !s.shuttingDown && id in s.live && s.live[id].meta.state.Queued? && s.slotsUsed < s.slotsMax
    requires t == s.(queue := RemoveAll(s.queue, id), calls := t.calls) && m.id == id
    requires m'.id == id && m'.state.Running? && 1 <= |SlicesOf(m')| == |cs| <= P.MAX_WORKERS
    requires m'.procs == Formatted(Spawned(cs))
    ensures var u := Save(o, Started(Forks(StartLoop(o, t, id, m, cs), id, cs), id, m', cs, timerOk), m');
      Launched(s, u, id, cs) && Core(u)
  {
    hide Valid, FreshPids, Save, StartLoop, Forks, WorldInv, Core, Looping, Launched, SavedTo, SlicesOf, Started;
    StartLoopKeeps(o, s, t, id, m, cs);
    var v := StartLoop(o, t, id, m, cs);
    ForksOnly(s, v, id, cs);
    var x := Forks(v, id, cs);
    var y := Started(x, id, m', cs, timerOk);
    StartedWorld(x, id, m', cs, timerOk);
    WorldSame(x, y);
    LoopingMaySave(s, x, m');
    SaveKeepsWorld(o, y, m');
    SuccessIsLaunched(s, x, id, m', cs, timerOk, Save(o, y, m'));
    LaunchedKeepsCore(s, Save(o, y, m'), id, cs);
  }

  lemma StartedWorld(x: State, id: nat, m: GoodMeta, cs: seq<Child>, timerOk: bool)
    requires id in x.live && 1 <= |SlicesOf(m)| <= P.MAX_WORKERS
    ensures Started(x, id, m, cs, timerOk).world == x.world && Started(x, id, m, cs, timerOk).newPids == x.newPids
  {
    hide Valid, SlicesOf;
  }

  lemma SuccessIsLaunched(s: State, x: State, id: nat, m: GoodMeta, cs: seq<Child>, timerOk: bool, u: State)
    requires Core(s) && id in s.live && s.live[id].meta.state.Queued? && Looping(s, x, id)
    requires x == s.(queue := RemoveAll(s.queue, id), calls := x.calls, log := x.log, world := x.world,
      newPids := x.newPids)
    requires x.newPids ==> FreshPids(s.pidOwner, cs)
    requires Joined(s.world.children, x.world.children, PidsOf(cs), id)
    requires m.id == id && m.state.Running? && 1 <= |SlicesOf(m)| == |cs| <= P.MAX_WORKERS
    requires m.procs == Formatted(Spawned(cs))
    requires SavedTo(Started(x, id, m, cs, timerOk), u, m)
    ensures Launched(s, u, id, cs)
  {
    hide Valid, FreshPids, SlicesOf, Joined, Own, Spawned, Core, Started, NewlyRunning, Looping, SameElsewhere;
    var y := Started(x, id, m, cs, timerOk);
    StartedMemory(s, x, id, m, cs, timerOk);
    QueuedIsRecorded(s, id);
    SavedElsewhere(s, x, id, m, u, y);
  }

  lemma StartedMemory(s: State, x: State, id: nat, m: GoodMeta, cs: seq<Child>, timerOk: bool)
    requires Core(s) && id in s.live && s.live[id].meta.state.Queued?
    requires x == s.(queue := RemoveAll(s.queue, id), calls := x.calls, log := x.log, world := x.world,
      newPids := x.newPids)
    requires m.id == id && m.state.Running? && 1 <= |SlicesOf(m)| == |cs| <= P.MAX_WORKERS
    requires m.procs == Formatted(Spawned(cs))
    ensures var y := Started(x, id, m, cs, timerOk);
      && y == x.(pidOwner := Own(s.pidOwner, Spawned(cs), id), slotsUsed := s.slotsUsed + 1, live := y.live)
      && id in y.live && y.live == s.live[id := y.live[id]] && NewlyRunning(y.live[id], id, cs) && y.live[id].meta == m
  {
    hide Valid, SlicesOf, Own, Spawned, Core, Shared, JobInv;
    NothingYet(s, id);
  }

  lemma SavedElsewhere(s: State, x: State, id: nat, m: Meta, u: State, y: State)
    requires Looping(s, x, id) && y.world == x.world && y.newPids == x.newPids && SavedTo(y, u, m) && m.id == id
    ensures SameElsewhere(s, u, id) && u.world.children == x.world.children
    ensures id in u.world.looped && id in u.world.stops && u.world.stops[id].NoStops?
    ensures id in u.world.disk && (id !in u.world.lost ==> u.world.disk[id] == m)
    ensures u.world.loops == s.world.loops + [id] && u.world.behind == s.world.behind && s.world.lost <= u.world.lost
  {
    hide Valid;
  }

  // ---------- launch_job and schedule ----------

  lemma LaunchKeeps(o: Oracle, s: State, id: nat) returns (cs: seq<Child>)
    requires Inv(s) && !s.shuttingDown && id in s.live && s.live[id].meta.state.Queued? && s.slotsUsed < s.slotsMax
    ensures var u := Launch(o, s.(queue := RemoveAll(s.queue, id)), id);
      Inv(u) && (Dropped(s, u, id) || Launched(s, u, id, cs))
  {
    hide Valid, Save, Dropped, Launched, Spawn, Core, Busy, Draining, Release;
    var a := o(s.calls);
    var t := s.(queue := RemoveAll(s.queue, id), calls := s.calls + 1);
    var u := Launch(o, s.(queue := RemoveAll(s.queue, id)), id);
    var m := s.live[id].meta;
    MetaOfJob(s, id);
    cs := [];
    if !m.op.OpExec? && a.launch.inspect.None? {
      var f := m.(error := a.text, state := Failed, finishedMs := a.realtime);
      DropSave(o, s, t, id, f);
      ReleaseNothing(Save(o, t, f), id);
      DroppedKeepsRest(s, u, id);
    } else {
      var m: Meta := if m.op.OpExec? then m else m.(bytes := a.launch.inspect.value);
      StaysValid(s.live[id].meta, m);
      if !a.launch.logOk || (!m.op.OpExec? && !a.launch.mapsOk) {
        DropSave(o, s, t, id, m.(state := Failed, error := a.text));
        DroppedKeepsRest(s, u, id);
      } else {
        cs := SpawnKeeps(o, s, t, id, m, a);
      }
    }
  }

  lemma MetaOfJob(s: State, id: nat)
    requires Core(s) && id in s.live
    ensures s.live[id].meta.id == id
    ensures s.live[id].meta.state.Queued? ==> s.live[id].procs == [] && !s.live[id].usesSlot
  {
    hide Valid, Shared, OnDisk;
    assert JobInv(s, id);
  }

  lemma ReleaseNothing(s: State, id: nat)
    requires id in s.live && s.live[id].procs == [] && !s.live[id].usesSlot
    ensures Release(s, id) == s
  {
    hide Valid;
    assert s.pidOwner - Pids([]) == s.pidOwner;
  }

  lemma SpawnKeeps(o: Oracle, s: State, t: State, id: nat, m: GoodMeta, a: Answer) returns (cs: seq<Child>)
    requires Inv(s) && !s.shuttingDown && id in s.live && s.live[id].meta.state.Queued? && s.slotsUsed < s.slotsMax
    requires t == s.(queue := RemoveAll(s.queue, id), calls := t.calls) && m.id == id
    ensures var u := Spawn(o, t, id, m, a);
      Inv(u) && (Dropped(s, u, id) || Launched(s, u, id, cs))
  {
    var last: Meta;
    cs, last := SpawnEnds(o, t, id, m, a);
    hide Valid, Save, Dropped, Launched, Core, Busy, Draining, Started, StartLoop, Forks, Aborts, SlicesOf, Formatted,
         Spawn, Drop;
    var u := Spawn(o, t, id, m, a);
    if last.state.Failed? {
      SpawnFails(o, s, t, id, m, cs, last);
      DroppedKeepsRest(s, u, id);
    } else {
      SpawnSucceeds(o, s, t, id, m, last, cs, a.launch.timerOk);
      LaunchedKeepsRest(s, u, id, cs);
    }
  }
}
