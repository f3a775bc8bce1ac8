/** Scheduling and the control lines keep the invariant. */
module ControllerLines {
  import opened Base
  import opened MetaCodec
  import opened Procs
  import opened Text
  import opened Validate
  import opened History
  import opened ControllerSpec
  import opened ControllerInv
  import opened ControllerKeeps
  import opened ControllerLaunch

  // ---------- what a handler leaves of every job ----------

  /** A live job stays live or is over; a record without a live job is as it was; no job appears. */
  ghost predicate Carried(s: State, u: State) {
    && u.live.Keys <= s.live.Keys
    && (forall x :: x in s.live ==> x in u.live || Over(u.world, x))
    && (forall x :: x !in s.live ==> (x in u.world.disk <==> x in s.world.disk))
    && (forall x :: x !in s.live && x in s.world.disk ==> u.world.disk[x] == s.world.disk[x])
    && s.world.lost <= u.world.lost
    && u.shuttingDown == s.shuttingDown && u.booted == s.booted && u.slotsMax == s.slotsMax
  }

  lemma CarriedOn(s: State, t: State, u: State)
    requires Carried(s, t) && Carried(t, u)
    ensures Carried(s, u)
  {
    hide Valid, Terminal;
  }

  lemma DroppedIsCarried(s: State, u: State, id: nat)
    requires Dropped(s, u, id) && id in s.live
    ensures Carried(s, u)
  {
    hide Valid, Terminal;
  }

  lemma LaunchedIsCarried(s: State, u: State, id: nat, cs: seq<Child>)
    requires Launched(s, u, id, cs) && id in s.live
    ensures Carried(s, u)
  {
    hide Valid, Terminal, NewlyRunning, Own, Joined, FreshPids;
  }

  lemma StoppedIsCarried(s: State, u: State, id: nat)
    requires id in s.live && Stopped(s, u, id)
    ensures Carried(s, u)
  {
    hide Valid, Terminal;
  }

  // ---------- schedule ----------

  /** Nothing that could run is left waiting. */
  ghost predicate WorkConserving(s: State) {
    s.shuttingDown || s.slotsUsed == s.slotsMax || s.queue == []
  }

  lemma QueuedIsEligible(s: State, q: nat)
    requires Core(s) && q in s.queue
    ensures Eligible(s.live, q)
  {
    hide Valid, SlotsExact, OwnersLive, OthersAtRest, OnDisk, RunningJob, WorldInv;
    assert JobInv(s, q);
  }

  lemma {:induction false} ScheduleKeeps(o: Oracle, s: State)
    requires Inv(s)
    ensures Inv(Schedule(o, s)) && Carried(s, Schedule(o, s)) && WorkConserving(Schedule(o, s))
    decreases |s.queue|
  {
    hide Valid, Core, Busy, Draining, Launch, Dropped, Launched, Carried, Best;
    SlotsInBounds(s);
    if !(s.shuttingDown || s.slotsUsed >= s.slotsMax) {
      var best := Best(s.live, s.queue);
      if best.None? {
        if s.queue != [] {
          QueuedIsEligible(s, s.queue[0]);
        }
        CarriedSelf(s);
      } else {
        var id := best.value;
        var u := Launch(o, s.(queue := RemoveAll(s.queue, id)), id);
        var cs := LaunchKeeps(o, s, id);
        if Dropped(s, u, id) {
          DroppedIsCarried(s, u, id);
        } else {
          LaunchedIsCarried(s, u, id, cs);
        }
        ScheduleKeeps(o, u);
        CarriedOn(s, u, Schedule(o, u));
      }
    } else {
      CarriedSelf(s);
    }
  }

  lemma SlotsInBounds(s: State)
    requires Inv(s)
    ensures 0 <= s.slotsUsed <= s.slotsMax
  {
    hide Valid, WorldInv, OwnersLive, OthersAtRest, QueueLive, JobInv, AllReaped;
  }

  lemma CarriedSelf(s: State)
    ensures Carried(s, s)
  {
    hide Valid, Terminal;
  }

  // ---------- enqueue ----------

  /** What accepting a record changes before schedule runs. */
  ghost predicate Admitted(s: State, u: State, id: nat, m: GoodMeta) {
    && id !in s.live && u.live == s.live[id := NewJob(m)] && u.queue == s.queue + [id] && m.id == id && m.state.Queued?
    && u.slotsMax == s.slotsMax && u.slotsUsed == s.slotsUsed && u.pidOwner == s.pidOwner
    && u.shuttingDown == s.shuttingDown && u.booted == s.booted && u.newPids == s.newPids
    && u.world == s.world.(disk := u.world.disk, lost := u.world.lost)
    && Stored(s.world, u.world, m) && id in s.world.disk && (id !in s.world.lost ==> id !in s.world.behind)
  }

  lemma AdmittedKeeps(s: State, u: State, id: nat, m: GoodMeta)
    requires Inv(s) && !s.shuttingDown && WorldInv(u) && Admitted(s, u, id, m)
    ensures Inv(u)
  {
    hide Valid, WorldInv, Shared, JobInv, AllReaped, Admitted;
    AdmittedKeepsShared(s, u, id, m);
    forall x | x in u.live ensures JobInv(u, x) && (u.live[x].meta.state.Queued? || Waiting(u.live[x])) {
      AdmittedKeepsJob(s, u, id, m, x);
    }
    assert !u.shuttingDown by {
      AdmittedNotShutting(s, u, id, m);
    }
  }

  lemma AdmittedNotShutting(s: State, u: State, id: nat, m: GoodMeta)
    requires !s.shuttingDown && Admitted(s, u, id, m)
    ensures !u.shuttingDown
  {
    hide Valid;
  }

  lemma AdmittedKeepsJob(s: State, u: State, id: nat, m: GoodMeta, x: nat)
    requires Inv(s) && !s.shuttingDown && Admitted(s, u, id, m) && x in u.live
    ensures JobInv(u, x) && (u.live[x].meta.state.Queued? || Waiting(u.live[x]))
  {
    hide Valid, WorldInv, SlotsExact, OwnersLive, OthersAtRest, RunningJob, AllReaped;
    if x != id {
      assert JobInv(s, x);
      assert u.live[x] == s.live[x];
      hide JobInv;
      FramedKeeps(s, u, x);
    }
  }

  lemma AdmittedKeepsShared(s: State, u: State, id: nat, m: GoodMeta)
    requires Inv(s) && WorldInv(u) && Admitted(s, u, id, m)
    ensures Shared(u)
  {
    hide Valid, WorldInv, JobInv, AllReaped, Busy, Draining, QueueLive, SlotsExact, OwnersLive, OthersAtRest;
    AdmittedKeepsQueue(s.queue, s.live.Keys, id);
    AdmittedKeepsMemory(s.pidOwner, s.live, id, m, s.slotsUsed, s.slotsMax);
    assert u.live.Keys == s.live.Keys + {id};
    AdmittedAtRest(s, u, id, m);
  }

  lemma AdmittedKeepsQueue(queue: seq<nat>, ids: set<nat>, id: nat)
    requires QueueLive(queue, ids) && id !in ids
    ensures QueueLive(queue + [id], ids + {id})
  {
  }

  lemma AdmittedKeepsMemory(owner: map<int32, nat>, live: map<nat, LiveJob>, id: nat, m: GoodMeta, used: int, max: nat)
    requires OwnersLive(owner, live) && SlotsExact(used, max, live) && id !in live
    ensures OwnersLive(owner, live[id := NewJob(m)]) && SlotsExact(used, max, live[id := NewJob(m)])
  {
    hide Valid;
    assert Slots(live[id := NewJob(m)]) == Slots(live);
  }

  lemma AdmittedAtRest(s: State, u: State, id: nat, m: GoodMeta)
    requires Admitted(s, u, id, m) && OthersAtRest(s.booted, s.world, s.live.Keys)
    ensures OthersAtRest(u.booted, u.world, u.live.Keys)
  {
    hide Valid, Terminal;
  }

  /** Carried, except that job `id` may have become live or had its record closed. */
  ghost predicate CarriedBut(s: State, u: State, id: nat) {
    && u.live.Keys <= s.live.Keys + {id}
    && (forall x :: x in s.live ==> x in u.live || Over(u.world, x))
    && (forall x :: x !in s.live && x != id ==> (x in u.world.disk <==> x in s.world.disk))
    && (forall x :: x !in s.live && x != id && x in s.world.disk ==> u.world.disk[x] == s.world.disk[x])
    && s.world.lost <= u.world.lost
    && u.booted == s.booted && u.slotsMax == s.slotsMax
  }

  /** The record of a job that is not live is closed for good. */
  ghost predicate Closed(s: State, u: State, id: nat) {
    && id !in s.live && id in s.world.disk
    && u == s.(calls := u.calls, log := u.log, world := u.world)
    && u.world == s.world.(disk := u.world.disk, lost := u.world.lost)
    && (forall x :: x != id ==> (x in u.world.disk <==> x in s.world.disk))
    && (forall x :: x != id && x in s.world.disk ==> u.world.disk[x] == s.world.disk[x])
    && s.world.lost <= u.world.lost && Over(u.world, id)
  }

  lemma ClosedKeeps(s: State, u: State, id: nat)
    requires Inv(s) && WorldInv(u) && Closed(s, u, id)
    ensures Inv(u) && CarriedBut(s, u, id)
  {
    hide Valid, WorldInv, SlotsExact, OwnersLive, AllReaped, QueueLive;
    forall x | x in u.live ensures JobInv(u, x) {
      assert JobInv(s, x);
      hide JobInv, OthersAtRest;
      FramedKeeps(s, u, x);
    }
    hide JobInv;
    ClosedAtRest(s, u, id);
  }

  lemma ClosedAtRest(s: State, u: State, id: nat)
    requires Closed(s, u, id) && OthersAtRest(s.booted, s.world, s.live.Keys)
    ensures OthersAtRest(u.booted, u.world, u.live.Keys)
  {
    hide Valid, Terminal;
  }

  /** Saving a terminal record for a job that is not live. */
  lemma CloseRecord(o: Oracle, s: State, t: State, id: nat, m: Meta)
    requires Inv(s) && id !in s.live && id in s.world.disk && !Terminal(s.world.disk[id].state)
    requires t == s.(calls := t.calls) && m.id == id && Terminal(m.state) && !m.state.Completed?
    ensures Inv(Save(o, t, m)) && Closed(s, Save(o, t, m), id) && CarriedBut(s, Save(o, t, m), id)
  {
    hide Valid, Save, Core, Busy, Draining, WorldInv, CarriedBut;
    WorldOfCore(s);
    WorldSame(s, t);
    assert MaySave(t.world, m);
    SaveKeepsWorld(o, t, m);
    assert Closed(s, Save(o, t, m), id);
    hide Closed;
    ClosedKeeps(s, Save(o, t, m), id);
  }

  /** A SUBMIT that arrives during shutdown rewrites the record of a job that is still running. */
  lemma BehindKeeps(o: Oracle, s: State, t: State, id: nat, m: Meta)
    requires Inv(s) && s.shuttingDown && id in s.live && t == s.(calls := t.calls)
    requires m.id == id && m.state.Cancelled?
    ensures Inv(SaveBehind(o, t, m)) && CarriedBut(s, SaveBehind(o, t, m), id) && SaveBehind(o, t, m).shuttingDown
  {
    hide Valid, WorldInv, SlotsExact, OwnersLive, AllReaped, QueueLive, StopsMatch, SlicesOf, Shaped, Tracked, Observe,
         OthersAtRest;
    assert JobInv(s, id);
    BehindWorld(o, s, t, id, m);
    var u := SaveBehind(o, t, m);
    forall x | x in u.live ensures JobInv(u, x) {
      assert JobInv(s, x);
      BehindKeepsJob(o, s, t, id, m, x);
    }
    hide JobInv;
    BehindAtRest(s, u, id);
  }

  ghost predicate Behind(s: State, u: State, id: nat) {
    && id in s.live && s.shuttingDown
    && u == s.(calls := u.calls, log := u.log, world := u.world)
    && u.world == s.world.(disk := u.world.disk, lost := u.world.lost, behind := u.world.behind)
    && (forall x :: x != id ==> (x in u.world.disk <==> x in s.world.disk))
    && (forall x :: x != id && x in s.world.disk ==> u.world.disk[x] == s.world.disk[x])
    && s.world.lost <= u.world.lost && id in u.world.disk && id in s.world.disk
    && (id !in u.world.lost ==> u.world.disk[id].state.Cancelled?)
    && s.world.behind <= u.world.behind <= s.world.behind + {id} && (id !in u.world.lost ==> id in u.world.behind)
  }

  lemma BehindWorld(o: Oracle, s: State, t: State, id: nat, m: Meta)
    requires Inv(s) && s.shuttingDown && id in s.live && t == s.(calls := t.calls)
    requires m.id == id && m.state.Cancelled?
    ensures WorldInv(SaveBehind(o, t, m)) && Behind(s, SaveBehind(o, t, m), id)
  {
    hide Valid, LoopsAreRecorded, FiledById, SlotsExact, OwnersLive, AllReaped, QueueLive, OthersAtRest, Shaped,
         SlicesOf,
         StopsMatch, Tracked;
    assert JobInv(s, id);
    var e := if o(t.calls).wrote then SavedBehind(m) else SaveLost(m);
    EmitKeepsWorld(t.(calls := t.calls + 1), e);
  }

  lemma BehindKeepsJob(o: Oracle, s: State, t: State, id: nat, m: Meta, x: nat)
    requires Behind(s, SaveBehind(o, t, m), id) && x in s.live && JobInv(s, x) && s.queue == []
    ensures JobInv(SaveBehind(o, t, m), x)
  {
    hide Valid, SaveBehind, SlicesOf, Shaped, Tracked;
    var u := SaveBehind(o, t, m);
    if x != id {
      hide JobInv;
      FramedKeeps(s, u, x);
    } else {
      BehindTracked(s, u, id);
    }
  }

  lemma BehindTracked(s: State, u: State, id: nat)
    requires Behind(s, u, id)
    ensures Tracked(s, id, s.live[id].procs) ==> Tracked(u, id, s.live[id].procs)
  {
    hide Valid;
  }

  lemma BehindAtRest(s: State, u: State, id: nat)
    requires Behind(s, u, id) && OthersAtRest(s.booted, s.world, s.live.Keys)
    ensures OthersAtRest(u.booted, u.world, u.live.Keys)
  {
    hide Valid, Terminal;
  }

  lemma AdmitKeeps(o: Oracle, s: State, id: nat)
    requires Inv(s) && !s.shuttingDown && id !in s.live && id in s.world.disk && Valid(s.world.disk[id])
    requires id !in s.world.lost ==> s.world.disk[id].state in {Submitted, Queued}
    ensures Valid(s.world.disk[id].(state := Queued))
    ensures var m: GoodMeta := s.world.disk[id].(state := Queued);
      var u := Save(o, s, m).(queue := s.queue + [id], live := s.live[id := NewJob(m)]);
      Inv(u) && Admitted(s, u, id, m)
  {
    StaysValid(s.world.disk[id], s.world.disk[id].(state := Queued));
    hide Valid, Save, Core, Busy, Draining, WorldInv;
    var m: GoodMeta := s.world.disk[id].(state := Queued);
    QueuedMaySubmit(s, id, m);
    SaveKeepsWorld(o, s, m);
    var u := Save(o, s, m).(queue := s.queue + [id], live := s.live[id := NewJob(m)]);
    WorldSame(Save(o, s, m), u);
    assert Admitted(s, u, id, m);
    hide Admitted;
    AdmittedKeeps(s, u, id, m);
  }

  lemma QueuedMaySubmit(s: State, id: nat, m: Meta)
    requires Core(s) && id in s.world.disk && m == s.world.disk[id].(state := Queued)
    requires id !in s.world.lost ==> s.world.disk[id].state in {Submitted, Queued}
    ensures WorldInv(s) && m.id == id && MaySave(s.world, m)
  {
    hide Valid, SlotsExact, OwnersLive, QueueLive, OthersAtRest, JobInv;
  }

  lemma EnqueueKeeps(o: Oracle, s: State, id: nat)
    requires Inv(s) && (s.booted || (id in s.world.disk && s.world.disk[id].state in {Submitted, Queued}))
    ensures Inv(Enqueue(o, s, id)) && CarriedBut(s, Enqueue(o, s, id), id)
    ensures Enqueue(o, s, id).shuttingDown == s.shuttingDown
    ensures !s.shuttingDown && id in s.world.disk ==> id in Enqueue(o, s, id).live || Over(Enqueue(o, s, id).world, id)
  {
    hide Valid, Problem, Save, SaveBehind, Core, Busy, Draining, WorldInv, Schedule, Carried, CarriedBut, Over;
    CarriedButSelf(s, id);
    if id in s.world.disk {
      RecordOf(s, id);
      InvalidHasProblem(s.world.disk[id]);
      var a := o(s.calls);
      var t := s.(calls := s.calls + 1);
      var m := s.world.disk[id];
      if s.shuttingDown {
        if !Terminal(m.state) {
          var c := m.(state := Cancelled, error := "controller is shutting down", finishedMs := a.realtime);
          if id in s.live {
            BehindKeeps(o, s, t, id, c);
          } else {
            CloseRecord(o, s, t, id, c);
          }
        }
      } else if !(id in s.live || Terminal(m.state)) {
        if !Valid(m) {
          var f := m.(state := Failed, error := Problem(m).value, finishedMs := a.realtime);
          CloseRecord(o, s, t, id, f);
        } else {
          EnqueueAdmits(o, s, id);
        }
      } else {
        OverIntro(s, id);
      }
    }
  }

  lemma OverIntro(s: State, id: nat)
    ensures id in s.world.disk && Terminal(s.world.disk[id].state) ==> Over(s.world, id)
  {
  }

  lemma RecordOf(s: State, id: nat)
    requires Core(s) && id in s.world.disk
    ensures s.world.disk[id].id == id && !s.world.disk[id].state.UnknownState?
    ensures s.booted && id !in s.world.lost && id !in s.live ==>
      s.world.disk[id].state.Submitted? || Terminal(s.world.disk[id].state)
  {
    hide Valid, SlotsExact, OwnersLive, QueueLive, JobInv, Terminal, LoopsAreRecorded;
  }

  lemma CarriedButSelf(s: State, id: nat)
    ensures CarriedBut(s, s, id)
  {
    hide Valid, Terminal;
  }

  lemma EnqueueAdmits(o: Oracle, s: State, id: nat)
    requires Inv(s) && !s.shuttingDown && id !in s.live && id in s.world.disk && Valid(s.world.disk[id])
    requires !Terminal(s.world.disk[id].state)
    requires id !in s.world.lost ==> s.world.disk[id].state in {Submitted, Queued}
    ensures var u := Enqueue(o, s, id);
      Inv(u) && CarriedBut(s, u, id) && u.shuttingDown == s.shuttingDown && (id in u.live || Over(u.world, id))
  {
    AdmitKeeps(o, s, id);
    hide Valid, Problem, Save, Inv, Schedule, Carried, CarriedBut, Over, Admitted, Terminal;
    var m: GoodMeta := s.world.disk[id].(state := Queued);
    var u := Save(o, s, m).(queue := s.queue + [id], live := s.live[id := NewJob(m)]);
    ScheduleKeeps(o, u);
    AdmittedThenCarried(s, u, Schedule(o, u), id, m);
  }

  lemma AdmittedThenCarried(s: State, u: State, v: State, id: nat, m: GoodMeta)
    requires Admitted(s, u, id, m) && Carried(u, v)
    ensures CarriedBut(s, v, id) && v.shuttingDown == s.shuttingDown && (id in v.live || Over(v.world, id))
  {
    hide Valid, Terminal;
  }

  // ---------- cancel ----------

  lemma CancelQueued(o: Oracle, s: State, id: nat)
    requires Core(s) && id in s.live && s.live[id].meta.state.Queued?
    ensures Core(OnCancel(o, s, id)) && Dropped(s, OnCancel(o, s, id), id)
  {
    hide Valid, Save, Core, Dropped;
    var a := o(s.calls);
    var t := s.(calls := s.calls + 1, queue := RemoveAll(s.queue, id));
    var m := s.live[id].meta.(state := Cancelled, error := "cancelled before start", finishedMs := a.realtime);
    MetaOfJob(s, id);
    DropSave(o, s, t, id, m);
    SaveIgnoresQueue(o, s.(calls := s.calls + 1), m, RemoveAll(s.queue, id));
  }

  lemma SaveIgnoresQueue(o: Oracle, s: State, m: Meta, q: seq<nat>)
    ensures Save(o, s.(queue := q), m) == Save(o, s, m).(queue := q)
  {
    hide Observe, Valid;
  }

  lemma OnCancelKeeps(o: Oracle, s: State, id: nat)
    requires Inv(s)
    ensures Inv(OnCancel(o, s, id)) && CarriedBut(s, OnCancel(o, s, id), id)
  {
    hide Valid, Save, Core, Busy, Draining, Carried, CarriedBut, Closed, Dropped, Stopped, RequestStop;
    var u := OnCancel(o, s, id);
    CarriedButSelf(s, id);
    if id !in s.live {
      if id in s.world.disk && !Terminal(s.world.disk[id].state) {
        RecordOf(s, id);
        CloseRecord(o, s, s.(calls := s.calls + 1), id,
                    s.world.disk[id].(state := Cancelled, error := "cancelled", finishedMs := o(s.calls).realtime));
      }
    } else if s.live[id].meta.state.Queued? {
      CancelQueued(o, s, id);
      DroppedKeepsRest(s, u, id);
      DroppedIsCarried(s, u, id);
      CarriedIsBut(s, u, id);
    } else {
      LiveJobRuns(s, id);
      RequestStopKeeps(o, s, id, StopCancelled);
      BusyIsBut(s, id);
      StoppedKeepsRest(s, u, id);
      StoppedIsCarried(s, u, id);
      CarriedIsBut(s, u, id);
    }
  }

  lemma LiveJobRuns(s: State, id: nat)
    requires Core(s) && id in s.live && !s.live[id].meta.state.Queued?
    ensures s.live[id].meta.state.Running?
  {
    hide Valid, Shared, OnDisk;
    assert JobInv(s, id);
  }

  lemma BusyIsBut(s: State, id: nat)
    requires Busy(s)
    ensures BusyBut(s, id)
  {
    hide Valid, AllReaped;
  }

  lemma CarriedIsBut(s: State, u: State, id: nat)
    requires Carried(s, u)
    ensures CarriedBut(s, u, id)
  {
    hide Valid, Terminal;
  }

  // ---------- shutdown ----------

  lemma CancelOne(o: Oracle, s: State, t: State, id: nat)
    requires Core(t) && Busy(t) && Carried(s, t) && id in t.queue
    ensures var u := OnCancel(o, t, id);
      Core(u) && Busy(u) && Carried(s, u) && u.live == t.live - {id} &&
      forall x :: x in u.queue <==> x in t.queue && x != id
  {
    hide Valid, OnCancel, Core, Busy, Carried, Draining, Dropped;
    InQueueIsLive(t, id);
    CancelQueued(o, t, id);
    var u := OnCancel(o, t, id);
    DroppedKeepsRest(t, u, id);
    DroppedIsCarried(t, u, id);
    CarriedOn(s, t, u);
    DroppedLive(t, u, id);
  }

  lemma DroppedLive(s: State, u: State, id: nat)
    requires Dropped(s, u, id)
    ensures u.live == s.live - {id} && u.queue == RemoveAll(s.queue, id)
  {
    hide Valid, SameElsewhere;
  }

  lemma InQueueIsLive(s: State, id: nat)
    requires Core(s) && id in s.queue
    ensures id in s.live && s.live[id].meta.state.Queued?
  {
    hide Valid;
    QueuedIsEligible(s, id);
    hide Core;
  }

  lemma {:induction false} CancelAllKeeps(o: Oracle, s: State, ids: seq<nat>)
    requires Core(s) && Busy(s) && Distinct(ids) && forall x :: x in ids ==> x in s.queue
    ensures var t := CancelAll(o, s, ids);
      && Core(t) && Busy(t) && Carried(s, t)
      && (forall x :: x in t.live <==> x in s.live && x !in ids)
      && (forall x :: x in t.queue <==> x in s.queue && x !in ids)
  {
    hide Valid, OnCancel, Core, Busy, Carried;
    if ids == [] {
      CarriedSelf(s);
    } else {
      var front, id := ids[..|ids| - 1], ids[|ids| - 1];
      assert ids == front + [id];
      CancelAllKeeps(o, s, front);
      assert id !in front;
      CancelOne(o, s, CancelAll(o, s, front), id);
    }
  }

  lemma StopOne(o: Oracle, s: State, t: State, id: nat)
    requires Core(t) && Busy(t) && Carried(s, t) && id in t.live && t.live[id].meta.state.Running?
    ensures var u := RequestStop(o, t, id, StopShutdown);
      && Core(u) && Busy(u) && Carried(s, u) && u.live.Keys == t.live.Keys && u.queue == t.queue
      && !u.live[id].stop.NoStop? && forall x :: x in t.live && !t.live[x].stop.NoStop? ==> !u.live[x].stop.NoStop?
  {
    hide Valid, RequestStop, Core, Busy, Carried;
    RequestStopKeeps(o, t, id, StopShutdown);
    var u := RequestStop(o, t, id, StopShutdown);
    BusyIsBut(t, id);
    StoppedKeepsRest(t, u, id);
    StoppedIsCarried(t, u, id);
    CarriedOn(s, t, u);
  }

  lemma {:induction false} StopAllKeeps(o: Oracle, s: State, ids: seq<nat>)
    requires Core(s) && Busy(s) && s.queue == []
    ensures var t := StopAll(o, s, ids);
      && Core(t) && Busy(t) && Carried(s, t) && t.live.Keys == s.live.Keys && t.queue == s.queue
      && forall x :: x in ids && x in t.live ==> !t.live[x].stop.NoStop?
  {
    hide Valid, RequestStop, Core, Busy, Carried;
    if ids == [] {
      CarriedSelf(s);
    } else {
      var front, id := ids[..|ids| - 1], ids[|ids| - 1];
      assert ids == front + [id];
      StopAllKeeps(o, s, front);
      var t := StopAll(o, s, front);
      if id in t.live {
        NoQueueMeansRunning(t, id);
        StopOne(o, s, t, id);
      }
    }
  }

  lemma NoQueueMeansRunning(s: State, id: nat)
    requires Core(s) && s.queue == [] && id in s.live
    ensures s.live[id].meta.state.Running?
  {
    hide Valid, Shared, OnDisk;
    assert JobInv(s, id);
  }

  lemma BeginShutdown(s: State)
    requires Core(s) && Busy(s)
    ensures Core(s.(shuttingDown := true)) && Busy(s.(shuttingDown := true))
  {
    hide Valid, AllReaped, SlotsExact, QueueLive, OwnersLive, OthersAtRest, LoopsAreRecorded, FiledById;
    var t := s.(shuttingDown := true);
    forall x | x in t.live ensures JobInv(t, x) {
      assert JobInv(s, x);
      hide JobInv;
      FramedKeeps(s, t, x);
    }
  }

  /** What SHUTDOWN leaves: the same live jobs minus the queued ones, all told to stop. */
  lemma ShutdownKeeps(o: Oracle, s: State, order: seq<nat>)
    requires Inv(s) && forall x :: x in s.live ==> x in order
    ensures var u := Shutdown(o, s, order);
      Inv(u) && u.shuttingDown && Carried(s.(shuttingDown := true), u)
  {
    hide Valid, Core, Busy, Carried, CancelAll, StopAll, AllReaped;
    var s1 := s.(shuttingDown := true);
    BeginShutdown(s);
    QueueIsDistinct(s);
    CancelAllKeeps(o, s1, s.queue);
    var t := CancelAll(o, s1, s.queue);
    EmptyQueue(t);
    StopAllKeeps(o, t, order);
    var u := StopAll(o, t, order);
    CarriedOn(s1, t, u);
    CarriedFlags(s1, u);
    assert forall x :: x in u.live ==> x in order;
  }

  lemma EmptyQueue(t: State)
    ensures (forall x :: x !in t.queue) ==> t.queue == []
  {
    if t.queue != [] {
      assert t.queue[0] in t.queue;
    }
  }

  lemma QueueIsDistinct(s: State)
    requires Core(s)
    ensures Distinct(s.queue)
  {
    hide Valid, WorldInv, SlotsExact, OwnersLive, OthersAtRest, JobInv;
  }

  lemma CarriedFlags(s: State, u: State)
    requires Carried(s, u)
    ensures u.shuttingDown == s.shuttingDown && u.live.Keys <= s.live.Keys
  {
    hide Valid, Terminal;
  }

  // ---------- deadline and tick ----------

  lemma OnDeadlineKeeps(o: Oracle, s: State, id: nat)
    requires Inv(s)
    ensures Inv(OnDeadline(o, s, id)) && Carried(s, OnDeadline(o, s, id))
  {
    hide Valid, Core, Busy, Draining, Carried, RequestStop, Stopped;
    CarriedSelf(s);
    if id in s.live && s.live[id].deadline {
      DeadlineRuns(s, id);
      RequestStopKeeps(o, s, id, StopTimedOut);
      var u := RequestStop(o, s, id, StopTimedOut);
      BusyIsBut(s, id);
      StoppedKeepsRest(s, u, id);
      StoppedIsCarried(s, u, id);
    }
  }

  lemma DeadlineRuns(s: State, id: nat)
    requires Core(s) && id in s.live && s.live[id].deadline
    ensures s.live[id].meta.state.Running?
  {
    hide Valid, Shared, OnDisk;
    assert JobInv(s, id);
  }

  /** SIGKILL follows SIGTERM when more than a second has passed. */
  lemma EscalateOne(s: State, id: nat)
    requires Inv(s) && id in s.live
    requires var job := s.live[id];
      job.stop != NoStop && !job.escalated && job.stopSentMs != 0 && s.clock - job.stopSentMs > 1000
    ensures var u := SignalJob(s, id, SIGKILL);
      var v := u.(live := u.live[id := s.live[id].(escalated := true)]);
      Inv(v) && Stopped(s, v, id)
  {
    hide Valid, Core, Busy, Draining, SignalJob, Stopped, StopsMatch;
    StopWasSent(s, id);
    SignalJobKeepsWorld(s, id, SIGKILL);
    var u := SignalJob(s, id, SIGKILL);
    var v := u.(live := u.live[id := s.live[id].(escalated := true)]);
    EscalatedIsStopped(s, u, id);
    WorldSame(u, v);
    StoppedKeepsCore(s, v, id);
    BusyIsBut(s, id);
    StoppedKeepsRest(s, v, id);
  }

  lemma StopWasSent(s: State, id: nat)
    requires Core(s) && id in s.live && s.live[id].stop != NoStop && !s.live[id].escalated
    ensures s.live[id].meta.state.Running? && WorldInv(s)
    ensures id in s.world.stops && s.world.stops[id] == Termed(s.live[id].stopSentMs)
    ensures s.newPids ==> Tracked(s, id, s.live[id].procs)
  {
    hide Valid, WorldInv, SlotsExact, QueueLive, OwnersLive, OthersAtRest, OnDisk, SlicesOf, Shaped, Tracked;
    assert JobInv(s, id);
  }

  lemma EscalatedIsStopped(s: State, u: State, id: nat)
    requires id in s.live && RoundSent(s, u, id, SIGKILL) && s.live[id].stop != NoStop
    ensures var v := u.(live := u.live[id := s.live[id].(escalated := true)]);
      Stopped(s, v, id) && StopsMatch(v.world, id, v.live[id])
  {
    hide Valid;
  }

  lemma {:induction false} EscalateKeeps(s: State, ids: seq<nat>)
    requires Inv(s)
    ensures Inv(Escalate(s, ids)) && Carried(s, Escalate(s, ids))
  {
    hide Valid, Inv, Carried, SignalJob, Stopped;
    if ids == [] {
      CarriedSelf(s);
    } else {
      var front, id := ids[..|ids| - 1], ids[|ids| - 1];
      EscalateKeeps(s, front);
      var t := Escalate(s, front);
      if id in t.live {
        var job := t.live[id];
        if job.stop != NoStop && !job.escalated && job.stopSentMs != 0 && t.clock - job.stopSentMs > 1000 {
          EscalateOne(t, id);
          StoppedIsCarried(t, Escalate(s, ids), id);
          CarriedOn(s, t, Escalate(s, ids));
        }
      }
    }
  }

  lemma OnTickKeeps(o: Oracle, s: State, order: seq<nat>)
    requires Inv(s)
    ensures Inv(OnTick(o, s, order)) && Carried(s, OnTick(o, s, order))
  {
    hide Inv, Valid, Carried, Escalate;
    var t := s.(calls := s.calls + 1, clock := s.clock + o(s.calls).elapsed);
    ClockKeeps(s, t);
    EscalateKeeps(t, order);
    CarriedOn(s, t, OnTick(o, s, order));
  }

  lemma ClockKeeps(s: State, t: State)
    requires Inv(s) && t == s.(calls := t.calls, clock := t.clock)
    ensures Inv(t) && Carried(s, t)
  {
    hide Valid, AllReaped, SlotsExact, QueueLive, OwnersLive, OthersAtRest, LoopsAreRecorded, FiledById, Terminal;
    forall x | x in t.live ensures JobInv(t, x) {
      assert JobInv(s, x);
      hide JobInv;
      FramedKeeps(s, t, x);
    }
  }

  // ---------- restart ----------

  lemma {:induction false} KillLeftoversKeepsWorld(o: Oracle, s: State, id: nat, ps: seq<ProcRef>)
    requires WorldInv(s) && id in s.world.disk
    requires forall p :: p in ps ==> Recorded(p.pid, p.start) in ParsedProcs(s.world.disk[id].procs)
    ensures WorldInv(KillLeftovers(o, s, id, ps)) && KillLeftovers(o, s, id, ps).world == s.world
  {
    hide Valid, WorldInv, Emit, ParsedProcs;
    if ps != [] {
      var front, p := ps[..|ps| - 1], ps[|ps| - 1];
      KillLeftoversKeepsWorld(o, s, id, front);
      var t := KillLeftovers(o, s, id, front);
      var u := t.(calls := t.calls + 1);
      WorldSame(t, u);
      if p.start != 0 && o(t.calls).starttime == Some(p.start) {
        LeftoverKeepsWorld(u, id, p);
      }
    }
  }

  lemma LeftoverKeepsWorld(s: State, id: nat, p: ProcRef)
    requires WorldInv(s) && id in s.world.disk && p.start != 0
    requires Recorded(p.pid, p.start) in ParsedProcs(s.world.disk[id].procs)
    ensures var t := Emit(s, LeftoverKilled(id, p.pid, p.start, p.start)); WorldInv(t) && t.world == s.world
  {
    hide LoopsAreRecorded, FiledById, ParsedProcs, Recorded;
    EmitKeepsWorld(s, LeftoverKilled(id, p.pid, p.start, p.start));
  }

  lemma {:induction false} ParsedAreRecorded(entries: seq<string>)
    ensures forall p :: p in ReadEntries(entries) ==> p == Recorded(p.pid, p.start)
  {
    if entries != [] {
      ParsedAreRecorded(entries[1..]);
    }
  }

  /** While recover runs: the jobs handled so far are live or over, and no other job is live. */
  ghost predicate Recovering(s: State, ids: seq<nat>) {
    && !s.shuttingDown && !s.booted && s.live.Keys <= (set x | x in ids)
    && forall x :: x in ids && x in s.world.disk ==> x in s.live || Over(s.world, x)
  }

  lemma FailLeftover(o: Oracle, s: State, id: nat)
    requires Inv(s) && id !in s.live && id in s.world.disk && s.world.disk[id].state in {Running, Starting, Persisting}
    ensures var u := RecoverOne(o, s, id); Inv(u) && CarriedBut(s, u, id) && Over(u.world, id) && u.live == s.live
    ensures RecoverOne(o, s, id).shuttingDown == s.shuttingDown
  {
    hide Valid, Inv, ParsedProcs, KillLeftovers, CarriedBut, Save, Over;
    var m := s.world.disk[id];
    var t := KillLeftovers(o, s, id, ParsedProcs(m.procs));
    LeftoversKeep(o, s, id);
    var f := m.(state := Failed, error := RESTARTED, finishedMs := o(t.calls).realtime);
    RecordIsOwn(s, id);
    CloseRecord(o, t, t.(calls := t.calls + 1), id, f);
    var u := Save(o, t.(calls := t.calls + 1), f);
    LeftoverCarried(s, t, u, id);
  }

  lemma LeftoverCarried(s: State, t: State, u: State, id: nat)
    requires t == s.(log := t.log, world := t.world, calls := t.calls) && t.world == s.world
    requires Closed(t, u, id) && CarriedBut(t, u, id)
    ensures CarriedBut(s, u, id) && Over(u.world, id) && u.live == s.live
  {
    hide Valid, Terminal;
  }

  lemma RecordIsOwn(s: State, id: nat)
    requires Inv(s) && id in s.world.disk
    ensures s.world.disk[id].id == id && !s.world.disk[id].state.UnknownState?
  {
    hide Valid, Busy, Draining;
    RecordOf(s, id);
  }

  lemma LeftoversKeep(o: Oracle, s: State, id: nat)
    requires Inv(s) && id in s.world.disk
    ensures var t := KillLeftovers(o, s, id, ParsedProcs(s.world.disk[id].procs)); Inv(t) && t.world == s.world
  {
    hide Valid, Core, Busy, Draining, KillLeftovers, WorldInv, ReadEntry, Split;
    ParsedAreRecorded(Split(s.world.disk[id].procs, ','));
    WorldOfCore(s);
    var t := KillLeftovers(o, s, id, ParsedProcs(s.world.disk[id].procs));
    KillLeftoversKeepsWorld(o, s, id, ParsedProcs(s.world.disk[id].procs));
    LogKeeps(s, t);
  }

  lemma LogKeeps(s: State, t: State)
    requires Inv(s) && t == s.(log := t.log, calls := t.calls)
    ensures Inv(t)
  {
    hide Valid, AllReaped, SlotsExact, QueueLive, OwnersLive, OthersAtRest, LoopsAreRecorded, FiledById, Terminal;
    forall x | x in t.live ensures JobInv(t, x) {
      assert JobInv(s, x);
      hide JobInv;
      FramedKeeps(s, t, x);
    }
  }

  lemma RecoverOneKeeps(o: Oracle, s: State, front: seq<nat>, id: nat)
    requires Inv(s) && Recovering(s, front) && id !in front
    ensures var u := RecoverOne(o, s, id);
      Inv(u) && Recovering(u, front + [id]) && forall x :: x in u.world.disk ==> x in s.world.disk || x in front + [id]
  {
    hide Valid, Inv, CarriedBut, Enqueue, KillLeftovers, ParsedProcs;
    var u := RecoverOne(o, s, id);
    if id !in s.world.disk {
      CarriedButSelf(s, id);
      RecoveringOn(s, s, front, id);
    } else {
      RecordIsOwn(s, id);
      var m := s.world.disk[id];
      if m.state in {Running, Starting, Persisting} {
        FailLeftover(o, s, id);
      } else if m.state in {Submitted, Queued} {
        EnqueueKeeps(o, s, id);
      } else {
        CarriedButSelf(s, id);
      }
      RecoveringOn(s, u, front, id);
    }
  }

  lemma RecoveringOn(s: State, u: State, front: seq<nat>, id: nat)
    requires Recovering(s, front) && CarriedBut(s, u, id) && id !in front && u.shuttingDown == s.shuttingDown
    requires id in u.world.disk ==> id in u.live || Over(u.world, id)
    ensures Recovering(u, front + [id])
    ensures forall x :: x in u.world.disk ==> x in s.world.disk || x in front + [id]
  {
    hide Valid, Terminal;
  }

  lemma {:induction false} RecoverAllKeeps(o: Oracle, s: State, ids: seq<nat>)
    requires Inv(s) && s.live == map[] && !s.booted && !s.shuttingDown && Distinct(ids)
    ensures var t := RecoverAll(o, s, ids);
      Inv(t) && Recovering(t, ids) && forall x :: x in t.world.disk ==> x in s.world.disk || x in ids
  {
    hide Valid, Inv, RecoverOne;
    if ids == [] {
    } else {
      var front, id := ids[..|ids| - 1], ids[|ids| - 1];
      assert ids == front + [id];
      RecoverAllKeeps(o, s, front);
      RecoverOneKeeps(o, RecoverAll(o, s, front), front, id);
    }
  }

  /** After recover every record it listed belongs to a live job or is terminal. */
  lemma RecoverKeeps(o: Oracle, s: State, ids: seq<nat>)
    requires Inv(s) && s.live == map[] && !s.booted && !s.shuttingDown && Distinct(ids)
    requires forall id :: id in s.world.disk ==> id in ids
    ensures var u := Recover(o, s, ids);
      && Inv(u) && u.booted && !u.shuttingDown
      && forall id :: id in u.world.disk ==> id in ids && (id in u.live || Over(u.world, id))
  {
    hide Valid, Inv, RecoverAll, Over;
    RecoverAllKeeps(o, s, ids);
    var t := RecoverAll(o, s, ids);
    BootedKeeps(t);
  }

  lemma BootedKeeps(t: State)
    requires Inv(t) && forall id :: id in t.world.disk ==> id in t.live || Over(t.world, id)
    ensures Inv(t.(booted := true))
  {
    hide Valid, AllReaped, SlotsExact, QueueLive, OwnersLive, LoopsAreRecorded, FiledById, Terminal;
    var u := t.(booted := true);
    forall x | x in u.live ensures JobInv(u, x) {
      assert JobInv(t, x);
      hide JobInv, OthersAtRest, Over;
      FramedKeeps(t, u, x);
    }
  }
}
