/** Every handler keeps the invariant. */
module ControllerKeeps {
  import opened Base
  import opened MetaCodec
  import opened Procs
  import opened Validate
  import opened History
  import opened ControllerSpec
  import opened ControllerInv
  import R = Results

  // ---------- effects ----------

  lemma EmitKeepsWorld(s: State, e: Effect)
    requires WorldInv(s) && Rule(s.world, e) && (s.newPids ==> Aimed(s.world, e))
    ensures WorldInv(Emit(s, e))
  {
    ObserveKeepsFiles(s.world, e);
    ObserveKeepsLoops(s.world, e);
    hide LoopsAreRecorded, FiledById, Rule, Aimed;
  }

  /** The rules for saving `m`, as far as they apply. */
  ghost predicate MaySave(w: World, m: Meta) {
    && !m.state.UnknownState? && OutputRule(w, m)
    && (m.id !in w.lost ==> LoopRule(w, m)) && (m.id !in w.lost && m.id !in w.behind ==> SaveRule(w, m))
  }

  /** What a save of `m` changes: the record is replaced, or the save is lost. */
  ghost predicate Stored(w: World, v: World, m: Meta) {
    if m.id in v.lost && m.id !in w.lost then v.disk == w.disk && v.lost == w.lost + {m.id}
    else v.lost == w.lost && (v.disk == w.disk[m.id := m] || (m.id in w.lost && v.disk == w.disk))
  }

  /** And nothing else. */
  ghost predicate SavedTo(s: State, t: State, m: Meta) {
    && t == s.(calls := t.calls, log := t.log, world := t.world)
    && t.world == s.world.(disk := t.world.disk, lost := t.world.lost)
    && Stored(s.world, t.world, m)
  }

  lemma SaveKeepsWorld(o: Oracle, s: State, m: Meta)
    requires WorldInv(s) && MaySave(s.world, m)
    ensures WorldInv(Save(o, s, m)) && SavedTo(s, Save(o, s, m), m)
  {
    hide LoopsAreRecorded, FiledById, OutputRule, SaveRule, LoopRule;
    var e := if o(s.calls).wrote then Saved(m) else SaveLost(m);
    assert Rule(s.world, e) && Aimed(s.world, e);
    EmitKeepsWorld(s.(calls := s.calls + 1), e);
  }

  /** What a round of signals changes. */
  ghost predicate RoundSent(s: State, t: State, id: nat, sig: Signo) {
    && t == s.(log := t.log, world := t.world)
    && t.world == s.world.(stops := s.world.stops[id := if sig.SIGTERM? then Termed(s.clock) else KilledToo],
                           round := Some((id, sig)), aimed := t.world.aimed)
  }

  lemma SignalKeepsWorld(s: State, id: nat, pid: int32, sig: Signo)
    requires WorldInv(s) && s.world.round == Some((id, sig))
    requires s.newPids ==> pid in s.world.children && s.world.children[pid] == id
    ensures WorldInv(Emit(s, Signalled(id, pid, sig)))
    ensures Emit(s, Signalled(id, pid, sig)).world == s.world.(aimed := Emit(s, Signalled(id, pid, sig)).world.aimed)
  {
    EmitKeepsWorld(s, Signalled(id, pid, sig));
    hide FiledById, LoopsAreRecorded;
  }

  lemma {:induction false} SignalsKeepWorld(s: State, id: nat, ps: seq<ProcRef>, sig: Signo)
    requires WorldInv(s) && s.world.round == Some((id, sig)) && (s.newPids ==> Tracked(s, id, ps))
    ensures WorldInv(Signals(s, id, ps, sig))
    ensures Signals(s, id, ps, sig).world == s.world.(aimed := Signals(s, id, ps, sig).world.aimed)
  {
    hide WorldInv, Emit;
    if ps != [] {
      SignalsKeepWorld(s, id, ps[..|ps| - 1], sig);
      var t := Signals(s, id, ps[..|ps| - 1], sig);
      var p := ps[|ps| - 1];
      if !(p.reaped || p.pid <= 0) {
        SignalKeepsWorld(t, id, p.pid, sig);
      }
    }
  }

  lemma SignalJobKeepsWorld(s: State, id: nat, sig: Signo)
    requires id in s.live && WorldInv(s) && Rule(s.world, StopRound(id, sig, s.clock))
    requires s.newPids ==> Tracked(s, id, s.live[id].procs)
    ensures WorldInv(SignalJob(s, id, sig)) && RoundSent(s, SignalJob(s, id, sig), id, sig)
  {
    hide FiledById, LoopsAreRecorded, WorldInv, Rule;
    var e := StopRound(id, sig, s.clock);
    EmitKeepsWorld(s, e);
    SignalsKeepWorld(Emit(s, e), id, s.live[id].procs, sig);
  }

  // ---------- stopping ----------

  /** What stopping a job changes: its stop fields and the signals sent, nothing else. */
  ghost predicate Stopped(s: State, t: State, id: nat)
    requires id in s.live
  {
    && t == s.(calls := t.calls, clock := t.clock, log := t.log, world := t.world, live := t.live)
    && t.live.Keys == s.live.Keys
    && t.live[id] == s.live[id].(stop := t.live[id].stop, stopSentMs := t.live[id].stopSentMs,
                                 escalated := t.live[id].escalated)
    && (!s.live[id].stop.NoStop? ==> t.live[id].stop == s.live[id].stop)
    && (forall x :: x in s.live && x != id ==> t.live[x] == s.live[x])
    && t.world == s.world.(stops := t.world.stops, round := t.world.round, aimed := t.world.aimed)
    && (forall x :: x in s.world.stops && x != id ==> x in t.world.stops && t.world.stops[x] == s.world.stops[x])
  }

  lemma StoppedKeepsCore(s: State, t: State, id: nat)
    requires Core(s) && id in s.live && s.live[id].meta.state.Running? && Stopped(s, t, id) && WorldInv(t)
    requires StopsMatch(t.world, id, t.live[id])
    ensures Core(t)
  {
    hide WorldInv, StopsMatch, SlicesOf, Shaped, Shared, AllReaped, AtRest;
    forall x | x in t.live ensures JobInv(t, x) {
      StoppedKeepsJob(s, t, id, x);
    }
    hide JobInv;
    StoppedKeepsShared(s, t, id);
  }

  lemma StoppedKeepsJob(s: State, t: State, id: nat, x: nat)
    requires id in s.live && JobInv(s, id) && s.live[id].meta.state.Running? && Stopped(s, t, id)
    requires StopsMatch(t.world, id, t.live[id]) && x in s.live && JobInv(s, x)
    ensures JobInv(t, x)
  {
    hide Valid, StopsMatch, SlicesOf, Shaped, AllReaped, Tracked;
    if x != id {
      StoppedFrames(s, t, id, x);
      hide *;
      FramedKeeps(s, t, x);
    } else if t.newPids {
      assert Tracked(s, id, s.live[id].procs);
      StoppedTracks(s, t, id);
    }
  }

  lemma StoppedFrames(s: State, t: State, id: nat, x: nat)
    requires id in s.live && Stopped(s, t, id) && x in s.live && x != id
    ensures Framed(s, t, x)
  {
    hide Valid;
  }

  lemma StoppedTracks(s: State, t: State, id: nat)
    requires id in s.live && Stopped(s, t, id) && Tracked(s, id, s.live[id].procs)
    ensures Tracked(t, id, t.live[id].procs)
  {
    hide Valid;
  }

  lemma StoppedKeepsShared(s: State, t: State, id: nat)
    requires Shared(s) && id in s.live && Stopped(s, t, id) && WorldInv(t)
    ensures Shared(t)
  {
    hide WorldInv, QueueLive, OthersAtRest, SlotsExact, OwnersLive;
    forall x | x in s.live
      ensures t.live[x].procs == s.live[x].procs && t.live[x].usesSlot == s.live[x].usesSlot
    {
    }
    SameSlots(s.live, t.live, s.slotsUsed, s.slotsMax);
    SameOwners(s.pidOwner, s.live, t.live);
    SameRest(s, t);
  }

  lemma SameSlots(a: map<nat, LiveJob>, b: map<nat, LiveJob>, used: int, max: nat)
    requires a.Keys == b.Keys && forall x :: x in a ==> b[x].usesSlot == a[x].usesSlot
    requires SlotsExact(used, max, a)
    ensures SlotsExact(used, max, b)
  {
    assert Slots(b) == Slots(a);
  }

  lemma SameOwners(owner: map<int32, nat>, a: map<nat, LiveJob>, b: map<nat, LiveJob>)
    requires a.Keys == b.Keys && forall x :: x in a ==> b[x].procs == a[x].procs
    requires OwnersLive(owner, a)
    ensures OwnersLive(owner, b)
  {
    hide Pids;
  }

  lemma SameRest(s: State, t: State)
    requires t.booted == s.booted && t.world.lost == s.world.lost && t.world.disk == s.world.disk
    requires t.live.Keys == s.live.Keys && OthersAtRest(s.booted, s.world, s.live.Keys)
    ensures OthersAtRest(t.booted, t.world, t.live.Keys)
  {
  }

  lemma RequestStopKeeps(o: Oracle, s: State, id: nat, reason: Stop)
    requires Core(s) && id in s.live && s.live[id].meta.state.Running? && !reason.NoStop?
    ensures Core(RequestStop(o, s, id, reason)) && Stopped(s, RequestStop(o, s, id, reason), id)
    ensures RequestStop(o, s, id, reason).live[id].stop == if s.live[id].stop.NoStop? then reason else s.live[id].stop
  {
    hide Core, SignalJob, Valid, Stopped;
    if s.live[id].stop.NoStop? {
      var now := s.clock + o(s.calls).elapsed;
      StopsNow(s, s.(calls := s.calls + 1, clock := now,
                     live := s.live[id := s.live[id].(stop := reason, stopSentMs := now)]), id);
    } else {
      NothingStopped(s, id);
    }
  }

  lemma NothingStopped(s: State, id: nat)
    requires id in s.live
    ensures Stopped(s, s, id)
  {
    hide Valid;
  }

  lemma StopsNow(s: State, u: State, id: nat)
    requires Core(s) && id in s.live && s.live[id].meta.state.Running? && s.live[id].stop.NoStop?
    requires id in u.live && !u.live[id].stop.NoStop? && u.live[id].stopSentMs == u.clock
    requires u.live == s.live[id := s.live[id].(stop := u.live[id].stop, stopSentMs := u.clock)]
    requires u == s.(calls := u.calls, clock := u.clock, live := u.live)
    ensures Core(SignalJob(u, id, SIGTERM)) && Stopped(s, SignalJob(u, id, SIGTERM), id)
    ensures SignalJob(u, id, SIGTERM).live == u.live
  {
    hide FiledById, LoopsAreRecorded, SlicesOf, Shaped, AllReaped, AtRest, SignalJob, Shared, Valid;
    NotStoppedYet(s, u, id);
    hide JobInv, Core;
    SignalJobKeepsWorld(u, id, SIGTERM);
    hide WorldInv;
    var t := SignalJob(u, id, SIGTERM);
    assert Stopped(s, t, id);
    assert StopsMatch(t.world, id, t.live[id]);
    assert t.live == u.live;
    hide Stopped, RoundSent;
    StoppedKeepsCore(s, t, id);
  }

  lemma NotStoppedYet(s: State, u: State, id: nat)
    requires Core(s) && id in s.live && s.live[id].meta.state.Running? && s.live[id].stop.NoStop?
    requires u.world == s.world && u.newPids == s.newPids && u.pidOwner == s.pidOwner
    ensures id in s.world.stops && s.world.stops[id].NoStops? && !s.live[id].escalated
    ensures WorldInv(u) && (s.newPids ==> Tracked(u, id, s.live[id].procs))
  {
    hide FiledById, LoopsAreRecorded, SlicesOf, Shaped, AllReaped, AtRest, QueueLive, OthersAtRest, SlotsExact,
         OwnersLive;
    assert JobInv(s, id);
  }

  // ---------- the end of a job ----------

  /** The output that goes with a completed text operation is the one results_ok made, and the digest says the same. */
  ghost predicate Matches(m: Meta, v: R.Verdict) {
    m.state.Completed? && HasText(m.op) ==>
      v.Good? && v.body != "" && (m.op in {OpSha256, OpCount} ==> m.digest == TrimNewlines(v.body))
  }

  lemma BodyIsText(e: R.Evidence)
    requires R.WellShaped(e) && R.Accepts(e) && HasText(e.op)
    ensures R.Body(e) != ""
  {
  }

  lemma JudgedFits(job: LiveJob, a: Answer)
    ensures var m := Judged(job, a);
      m.id == job.meta.id && Terminal(m.state) && Matches(m, VerdictOf(job, a))
  {
    hide R.Body, R.Accepts, R.Why, Valid, ExitsText, TrimNewlines, StateText;
    var e := EvidenceOf(job, a);
    if R.Accepts(e) && HasText(e.op) {
      BodyIsText(e);
    }
  }

  /** A stretch of finalize: nothing but this job's record and output change on disk. */
  ghost predicate OnlyRecord(s: State, t: State, id: nat) {
    && t == s.(calls := t.calls, log := t.log, world := t.world)
    && t.world == s.world.(disk := t.world.disk, lost := t.world.lost, outputs := t.world.outputs)
    && s.world.lost <= t.world.lost <= s.world.lost + {id}
    && (forall x :: x != id ==> (x in t.world.disk <==> x in s.world.disk))
    && (forall x :: x != id && x in s.world.disk ==> t.world.disk[x] == s.world.disk[x])
  }

  ghost predicate Over(w: World, id: nat) {
    id in w.disk && (id !in w.lost ==> Terminal(w.disk[id].state))
  }

  /** A job that went through the fork loop and whose record, unless lost or overwritten, says running. */
  ghost predicate InFlight(w: World, id: nat) {
    && id in w.looped && id in w.disk
    && (id !in w.lost && id !in w.behind ==> w.disk[id].state in {Running, Persisting})
  }

  lemma SettleKeepsWorld(o: Oracle, s: State, m: Meta, a: Answer, v: R.Verdict)
    requires WorldInv(s) && InFlight(s.world, m.id) && Terminal(m.state) && Matches(m, v)
    ensures var t := Settle(o, s, m, a, v); WorldInv(t) && OnlyRecord(s, t, m.id) && Over(t.world, m.id)
  {
    hide WorldInv, TrimNewlines, Save, OnlyRecord, InFlight, Over;
    if v.Good? && v.body != "" {
      var p := m.(state := Persisting);
      FlightSave(o, s, p);
      var t := Save(o, s, p);
      if a.outputWritten {
        OutputKeepsWorld(t, m.id, v.body);
        var u := Emit(t, OutputWritten(m.id, v.body));
        LastSave(o, u, m);
        Chain(s, t, u, m.id);
        Chain(s, u, Save(o, u, m), m.id);
      } else {
        var f := m.(state := Failed, error := a.text);
        LastSave(o, t, f);
        Chain(s, t, Save(o, t, f), m.id);
      }
    } else {
      LastSave(o, s, m);
    }
  }

  lemma Chain(s: State, t: State, u: State, id: nat)
    requires OnlyRecord(s, t, id) && OnlyRecord(t, u, id)
    ensures OnlyRecord(s, u, id)
  {
  }

  lemma FlightSave(o: Oracle, s: State, m: Meta)
    requires WorldInv(s) && InFlight(s.world, m.id) && m.state.Persisting?
    ensures var t := Save(o, s, m);
      && WorldInv(t) && InFlight(t.world, m.id) && OnlyRecord(s, t, m.id)
      && (m.id !in t.world.lost ==> t.world.disk[m.id] == m)
  {
    hide WorldInv, TrimNewlines, Save;
    SaveKeepsWorld(o, s, m);
  }

  lemma LastSave(o: Oracle, s: State, m: Meta)
    requires WorldInv(s) && InFlight(s.world, m.id) && Terminal(m.state) && OutputRule(s.world, m)
    ensures var t := Save(o, s, m); WorldInv(t) && OnlyRecord(s, t, m.id) && Over(t.world, m.id)
  {
    hide WorldInv, OutputRule, Save;
    SaveKeepsWorld(o, s, m);
  }

  lemma OutputKeepsWorld(s: State, id: nat, text: string)
    requires WorldInv(s) && InFlight(s.world, id) && (id !in s.world.lost ==> s.world.disk[id].state.Persisting?)
    ensures var t := Emit(s, OutputWritten(id, text));
      && WorldInv(t) && InFlight(t.world, id) && OnlyRecord(s, t, id)
      && t.world.outputs == s.world.outputs[id := text]
  {
    hide LoopsAreRecorded, FiledById;
    EmitKeepsWorld(s, OutputWritten(id, text));
  }

  /** What the end of a job changes in memory. */
  ghost predicate Ended(s: State, t: State, id: nat) {
    && t.live == s.live - {id}
    && t.slotsMax == s.slotsMax && t.shuttingDown == s.shuttingDown && t.booted == s.booted && t.newPids == s.newPids
    && t.world == s.world.(disk := t.world.disk, lost := t.world.lost, outputs := t.world.outputs)
    && s.world.lost <= t.world.lost <= s.world.lost + {id}
    && (forall x :: x != id ==> (x in t.world.disk <==> x in s.world.disk))
    && (forall x :: x != id && x in s.world.disk ==> t.world.disk[x] == s.world.disk[x])
    && Over(t.world, id)
    && t.queue == RemoveAll(s.queue, id)
  }

  lemma FinalizeKeeps(o: Oracle, s: State, id: nat)
    requires Core(s) && id in s.live && s.live[id].meta.state.Running? && AllReaped(s.live[id].procs)
    ensures Core(Finalize(o, s, id)) && Ended(s, Finalize(o, s, id), id)
  {
    hide Core, Valid, Settle, Judged, VerdictOf, WorldInv, AllReaped, Ended, OnlyRecord, Over, Release;
    var a := o(s.calls);
    var t := Settle(o, s.(calls := s.calls + 1), Judged(s.live[id], a), a, VerdictOf(s.live[id], a));
    RunningSettles(o, s, id);
    EndKeepsCore(s, t, id);
  }

  lemma RunningSettles(o: Oracle, s: State, id: nat)
    requires Core(s) && id in s.live && s.live[id].meta.state.Running?
    ensures var a := o(s.calls);
      var t := Settle(o, s.(calls := s.calls + 1), Judged(s.live[id], a), a, VerdictOf(s.live[id], a));
      && !s.live[id].finished && OnlyRecord(s, t, id) && WorldInv(t) && Over(t.world, id) && t.queue == s.queue
  {
    hide Valid, Settle, Judged, VerdictOf, Core, Over, AllReaped;
    var a := o(s.calls);
    var s0 := s.(calls := s.calls + 1);
    RunningIsInFlight(s, s0, id);
    JudgedFits(s.live[id], a);
    SettleKeepsWorld(o, s0, Judged(s.live[id], a), a, VerdictOf(s.live[id], a));
  }

  lemma RunningIsInFlight(s: State, s0: State, id: nat)
    requires Core(s) && id in s.live && s.live[id].meta.state.Running?
    requires s0.world == s.world && s0.newPids == s.newPids
    ensures s.live[id].meta.id == id && !s.live[id].finished && InFlight(s.world, id) && WorldInv(s0)
  {
    hide FiledById, LoopsAreRecorded, SlicesOf, Shaped, AllReaped, Valid, StopsMatch;
    assert JobInv(s, id);
  }

  /** release_runtime and live.erase, after the saves of finalize. */
  lemma EndKeepsCore(s: State, t: State, id: nat)
    requires Core(s) && id in s.live && s.live[id].meta.state.Running? && AllReaped(s.live[id].procs)
    requires OnlyRecord(s, t, id) && WorldInv(t) && Over(t.world, id)
    ensures var u := Drop(Release(t, id), id).(queue := RemoveAll(t.queue, id)); Core(u) && Ended(s, u, id)
  {
    var u := Drop(Release(t, id), id).(queue := RemoveAll(t.queue, id));
    hide WorldInv, SlicesOf, Shaped, Valid, Release, Over;
    EndIsEnded(s, t, id);
    hide OnlyRecord;
    forall x | x in u.live ensures JobInv(u, x) {
      assert JobInv(s, x) && JobInv(s, id);
      hide JobInv;
      EndFrames(s, u, id, x);
      FramedKeeps(s, u, x);
    }
    assert JobInv(s, id);
    EndKeepsShared(s, u, id);
  }

  lemma EndIsEnded(s: State, t: State, id: nat)
    requires id in s.live && OnlyRecord(s, t, id) && Over(t.world, id) && WorldInv(t) && JobInv(s, id)
    requires s.live[id].meta.state.Running?
    ensures var u := Drop(Release(t, id), id).(queue := RemoveAll(t.queue, id));
      && Ended(s, u, id) && WorldInv(u) && u.pidOwner == s.pidOwner - Pids(s.live[id].procs)
      && u.slotsUsed == s.slotsUsed - 1 && u.queue == RemoveAll(s.queue, id)
  {
    hide FiledById, LoopsAreRecorded, SlicesOf, Shaped, Valid, StopsMatch, Tracked, OnDisk, Pids;
    var u := Drop(Release(t, id), id).(queue := RemoveAll(t.queue, id));
    assert u.queue == RemoveAll(s.queue, id) && u.world == t.world && u.slotsUsed == s.slotsUsed - 1;
  }

  lemma EndFrames(s: State, u: State, id: nat, x: nat)
    requires id in s.live && Ended(s, u, id) && u.pidOwner == s.pidOwner - Pids(s.live[id].procs)
    requires x in s.live && x != id && JobInv(s, x) && JobInv(s, id)
    ensures Framed(s, u, x)
  {
    hide SlicesOf, Shaped, Valid, StopsMatch, OnDisk;
    if u.newPids {
      forall pid | pid in Pids(s.live[x].procs) ensures SamePid(s, u, pid) {
        OwnPids(s, x, id, pid);
      }
    }
  }

  lemma EndKeepsShared(s: State, u: State, id: nat)
    requires Shared(s) && id in s.live && JobInv(s, id) && s.live[id].meta.state.Running? && AllReaped(s.live[id].procs)
    requires Ended(s, u, id) && WorldInv(u) && u.pidOwner == s.pidOwner - Pids(s.live[id].procs)
    requires u.slotsUsed == s.slotsUsed - 1 && u.queue == RemoveAll(s.queue, id)
    ensures Shared(u)
  {
    hide WorldInv, SlicesOf, Shaped, Valid, StopsMatch, OnDisk, OwnersLive, SlotsExact, QueueLive, OthersAtRest;
    SlotsAfterEnd(s.live, id, s.slotsUsed, s.slotsMax);
    OwnersAfterEnd(s.pidOwner, s.live, id);
    QueueAfterEnd(s.queue, s.live.Keys, id);
    assert u.live.Keys == s.live.Keys - {id};
    hide Ended, JobInv;
    ChildrenAfterEnd(s, u, id);
    RestAfterEnd(s, u, id);
  }

  lemma SlotsAfterEnd(live: map<nat, LiveJob>, id: nat, used: int, max: nat)
    requires SlotsExact(used, max, live) && id in live && live[id].usesSlot
    ensures SlotsExact(used - 1, max, live - {id})
  {
    hide Valid;
    assert Slots(live - {id}) == Slots(live) - {id};
  }

  lemma OwnersAfterEnd(owner: map<int32, nat>, live: map<nat, LiveJob>, id: nat)
    requires OwnersLive(owner, live) && id in live
    ensures OwnersLive(owner - Pids(live[id].procs), live - {id})
  {
    hide Pids, Valid;
  }

  lemma QueueAfterEnd(queue: seq<nat>, ids: set<nat>, id: nat)
    requires QueueLive(queue, ids)
    ensures QueueLive(RemoveAll(queue, id), ids - {id})
  {
  }

  /** With all its processes reaped, none of them is a child any more. */
  lemma ChildrenAfterEnd(s: State, u: State, id: nat)
    requires Shared(s) && id in s.live && JobInv(s, id) && s.live[id].meta.state.Running? && AllReaped(s.live[id].procs)
    requires Ended(s, u, id) && u.pidOwner == s.pidOwner - Pids(s.live[id].procs)
    ensures u.newPids ==> u.world.children.Keys <= u.pidOwner.Keys
  {
    hide WorldInv, SlicesOf, Shaped, Valid, StopsMatch, OnDisk, OwnersLive, SlotsExact, QueueLive, OthersAtRest;
  }

  lemma RestAfterEnd(s: State, u: State, id: nat)
    requires Ended(s, u, id) && OthersAtRest(s.booted, s.world, s.live.Keys)
    ensures OthersAtRest(u.booted, u.world, u.live.Keys)
  {
    hide Terminal, Valid;
  }

  // ---------- reaping ----------

  /** Busy, except that job `id` may have no process left. */
  ghost predicate BusyBut(s: State, id: nat) {
    forall x :: x in s.live && x != id && !s.live[x].meta.state.Queued? ==> Waiting(s.live[x])
  }

  lemma WaitedKeepsWorld(s: State, pid: int32)
    requires WorldInv(s)
    ensures var t := Emit(s, Waited(pid));
      && WorldInv(t) && t == s.(log := t.log, world := t.world)
      && t.world == s.world.(children := s.world.children - {pid})
  {
    EmitKeepsWorld(s, Waited(pid));
    hide WorldInv, Valid;
  }

  lemma UnknownReapKeeps(s: State, pid: int32)
    requires Inv(s) && pid !in s.pidOwner
    ensures Inv(Emit(s, Waited(pid)))
  {
    hide Valid, WorldInv, SlicesOf, Shaped, AllReaped, StopsMatch, OnDisk, OwnersLive, SlotsExact, QueueLive,
         OthersAtRest, Emit;
    WaitedKeepsWorld(s, pid);
    var t := Emit(s, Waited(pid));
    forall x | x in t.live ensures JobInv(t, x) {
      assert JobInv(s, x);
      assert forall p :: p in Pids(s.live[x].procs) && s.newPids ==> p in s.pidOwner;
      hide JobInv;
      FramedKeeps(s, t, x);
    }
    hide JobInv;
    RestSame(s, t);
  }

  lemma RestSame(s: State, t: State)
    requires OthersAtRest(s.booted, s.world, s.live.Keys) && t.booted == s.booted && t.live.Keys == s.live.Keys
    requires t.world.disk == s.world.disk && s.world.lost <= t.world.lost
    ensures OthersAtRest(t.booted, t.world, t.live.Keys)
  {
  }

  /** What marking a process as reaped changes. */
  ghost predicate Marked(s: State, t: State, id: nat, pid: int32, how: WaitStatus)
    requires id in s.live
  {
    && t == s.(log := t.log, world := t.world,
               live := s.live[id := s.live[id].(procs := Mark(s.live[id].procs, pid, how))])
    && t.world == s.world.(children := s.world.children - {pid})
  }

  lemma OwnerRuns(s: State, pid: int32)
    requires Core(s) && pid in s.pidOwner
    ensures var id := s.pidOwner[pid]; id in s.live && s.live[id].meta.state.Running? && pid in Pids(s.live[id].procs)
  {
    hide Valid, WorldInv, SlicesOf, Shaped, StopsMatch, OnDisk, SlotsExact, QueueLive, OthersAtRest;
    assert JobInv(s, s.pidOwner[pid]);
  }

  lemma MarkKeepsJob(s: State, t: State, id: nat, pid: int32, how: WaitStatus, x: nat)
    requires id in s.live && Marked(s, t, id, pid, how) && s.live[id].meta.state.Running? &&
      pid in Pids(s.live[id].procs)
    requires JobInv(s, id) && x in s.live && JobInv(s, x)
    ensures JobInv(t, x)
  {
    hide Valid, SlicesOf, Shaped, AllReaped, StopsMatch, OnDisk;
    if x != id {
      if s.newPids {
        OwnPids(s, id, x, pid);
      }
      hide JobInv;
      FramedKeeps(s, t, x);
    } else {
      MarkKeepsDisk(s, t, id, pid, how);
      MarkKeepsShape(s.live[id].meta, s.live[id].procs, s.live[id].shm, pid, how);
      MarkKeepsTracked(s, t, id, pid, how);
    }
  }

  lemma MarkKeepsDisk(s: State, t: State, id: nat, pid: int32, how: WaitStatus)
    requires id in s.live && Marked(s, t, id, pid, how)
    ensures OnDisk(s.world, id, s.live[id].meta) ==> OnDisk(t.world, id, s.live[id].meta)
    ensures StopsMatch(s.world, id, s.live[id]) ==> StopsMatch(t.world, id, t.live[id])
  {
    hide Valid;
  }

  lemma MarkKeepsShape(m: Meta, ps: seq<ProcRef>, shm: Option<SlotCount>, pid: int32, how: WaitStatus)
    ensures Shaped(m, ps, shm) ==> Shaped(m, Mark(ps, pid, how), shm)
  {
    FormattedSame(ps, Mark(ps, pid, how));
    hide Formatted, SlicesOf;
  }

  lemma MarkKeepsTracked(s: State, t: State, id: nat, pid: int32, how: WaitStatus)
    requires id in s.live && Marked(s, t, id, pid, how)
    ensures Tracked(s, id, s.live[id].procs) ==> Tracked(t, id, t.live[id].procs)
  {
    hide Valid;
  }

  lemma MarkKeeps(s: State, id: nat, pid: int32, how: WaitStatus)
    requires Inv(s) && pid in s.pidOwner && id == s.pidOwner[pid]
    ensures id in s.live && s.live[id].meta.state.Running?
    ensures var u := Emit(s, Waited(pid));
      var t := u.(live := u.live[id := u.live[id].(procs := Mark(u.live[id].procs, pid, how))]);
      Marked(s, t, id, pid, how) && Core(t) && BusyBut(t, id) && Draining(t)
  {
    hide Valid, WorldInv, SlicesOf, Shaped, AllReaped, Emit, JobInv, Shared;
    OwnerRuns(s, pid);
    WaitedKeepsWorld(s, pid) by {
      WorldOfCore(s);
    }
    var u := Emit(s, Waited(pid));
    var t := u.(live := u.live[id := u.live[id].(procs := Mark(u.live[id].procs, pid, how))]);
    assert Marked(s, t, id, pid, how);
    assert BusyBut(t, id) && Draining(t);
    assert WorldInv(t) by {
      WorldSame(u, t);
    }
    hide Marked;
    forall x | x in s.live ensures JobInv(t, x) {
      MarkKeepsJob(s, t, id, pid, how, x);
    }
    MarkKeepsShared(s, t, id, pid, how);
  }

  lemma WorldOfCore(s: State)
    requires Core(s)
    ensures WorldInv(s)
  {
    hide WorldInv;
  }

  lemma WorldSame(u: State, t: State)
    requires WorldInv(u) && t.world == u.world && t.newPids == u.newPids
    ensures WorldInv(t)
  {
  }

  lemma MarkKeepsShared(s: State, t: State, id: nat, pid: int32, how: WaitStatus)
    requires Shared(s) && id in s.live && Marked(s, t, id, pid, how) && WorldInv(t)
    ensures Shared(t) && t.live.Keys == s.live.Keys
  {
    hide Valid, WorldInv, OwnersLive, SlotsExact, QueueLive, OthersAtRest, Mark;
    assert t.live.Keys == s.live.Keys;
    assert forall x :: x in s.live ==> t.live[x].usesSlot == s.live[x].usesSlot;
    SameSlots(s.live, t.live, s.slotsUsed, s.slotsMax);
    MarkKeepsOwners(s.pidOwner, s.live, id, pid, how);
    RestSame(s, t);
  }

  lemma MarkKeepsOwners(owner: map<int32, nat>, live: map<nat, LiveJob>, id: nat, pid: int32, how: WaitStatus)
    requires OwnersLive(owner, live) && id in live
    ensures OwnersLive(owner, live[id := live[id].(procs := Mark(live[id].procs, pid, how))])
  {
    hide Valid;
    MarkKeepsPids(live[id].procs, pid, how);
    hide Pids, Mark;
  }

  lemma MarkKeepsPids(ps: seq<ProcRef>, pid: int32, how: WaitStatus)
    ensures Pids(Mark(ps, pid, how)) == Pids(ps)
  {
    var r := Mark(ps, pid, how);
    forall p | p in Pids(ps) ensures p in Pids(r) {
      var i :| 0 <= i < |ps| && ps[i].pid == p;
      assert r[i] in r;
    }
    forall p | p in Pids(r) ensures p in Pids(ps) {
      var i :| 0 <= i < |r| && r[i].pid == p;
      assert ps[i] in ps;
    }
  }

  lemma StoppedKeepsRest(s: State, t: State, id: nat)
    requires id in s.live && Stopped(s, t, id) && BusyBut(s, id)
    ensures BusyBut(t, id)
    ensures Draining(s) ==> Draining(t)
    ensures Busy(s) ==> Busy(t)
  {
    hide Valid, AllReaped;
  }

  lemma EndedKeepsRest(s: State, t: State, id: nat)
    requires id in s.live && Ended(s, t, id) && BusyBut(s, id) && Draining(s)
    ensures Busy(t) && Draining(t)
  {
    hide Valid, AllReaped, Over;
  }

  lemma NoteReapKeeps(o: Oracle, s: State, pid: int32, how: WaitStatus)
    requires Inv(s)
    ensures Inv(NoteReap(o, s, pid, how))
  {
    hide Valid, Inv, Core, Emit, Mark, RequestStop, Finalize, BusyBut, Draining, Marked, AllReaped, AnyBad, Busy;
    EmitFrame(s, Waited(pid));
    if pid !in s.pidOwner {
      UnknownReapKeeps(s, pid);
    } else {
      var id := s.pidOwner[pid];
      MarkKeeps(s, id, pid, how);
      var u := Emit(s, Waited(pid));
      var t := u.(live := u.live[id := u.live[id].(procs := Mark(u.live[id].procs, pid, how))]);
      ReapedKeeps(o, t, id);
    }
  }

  lemma EmitFrame(s: State, e: Effect)
    ensures Emit(s, e) == s.(log := Emit(s, e).log, world := Emit(s, e).world)
  {
    hide Observe;
  }

  /** The rest of note_reap, after the marking. */
  lemma ReapedKeeps(o: Oracle, t: State, id: nat)
    requires Core(t) && BusyBut(t, id) && Draining(t) && id in t.live && t.live[id].meta.state.Running?
    ensures var ps := t.live[id].procs;
      var u := if AnyBad(ps) && t.live[id].stop == NoStop then RequestStop(o, t, id, StopFailed) else t;
      Inv(if AllReaped(ps) then Finalize(o, u, id) else u)
  {
    hide Valid, Core, RequestStop, Finalize, Draining, AllReaped, AnyBad, Stopped, Ended;
    var ps := t.live[id].procs;
    var u := if AnyBad(ps) && t.live[id].stop == NoStop then RequestStop(o, t, id, StopFailed) else t;
    if AnyBad(ps) && t.live[id].stop == NoStop {
      RequestStopKeeps(o, t, id, StopFailed);
      StoppedKeepsRest(t, u, id);
      StoppedJob(t, u, id);
    }
    if AllReaped(ps) {
      FinalizeKeeps(o, u, id);
      EndedKeepsRest(u, Finalize(o, u, id), id);
    }
  }

  lemma StoppedJob(s: State, t: State, id: nat)
    requires id in s.live && Stopped(s, t, id)
    ensures id in t.live && t.live[id].procs == s.live[id].procs && t.live[id].meta == s.live[id].meta
  {
    hide Valid;
  }
}
