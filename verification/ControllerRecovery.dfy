/** What recover does with the records it finds: which jobs it fails and which it may launch. */
module ControllerRecovery {
  import opened Base
  import opened MetaCodec
  import opened Procs
  import opened Validate
  import opened History
  import opened ControllerSpec
  import opened ControllerInv
  import opened ControllerKeeps
  import opened ControllerLines
  import opened ControllerLog
  import opened ControllerOrder
  import opened ControllerRuns

  /** The record says that the job has not been started. */
  predicate StillWaiting(disk: map<nat, Meta>, id: nat) {
    id in disk && disk[id].state in {Submitted, Queued}
  }

  /** The record says that the job was started and is not over. */
  predicate InProgress(disk: map<nat, Meta>, id: nat) {
    id in disk && disk[id].state in {Running, Starting, Persisting}
  }

  /** Unless a save of it was lost, the record says failed. */
  predicate HasFailed(w: World, id: nat) {
    id in w.disk && (id !in w.lost ==> w.disk[id].state.Failed?)
  }

  /** The jobs that went through the fork loop between two states were all waiting in `disk`. */
  ghost predicate LaunchedWaiting(disk: map<nat, Meta>, from: seq<nat>, to: seq<nat>) {
    from <= to && forall i :: |from| <= i < |to| ==> StillWaiting(disk, to[i])
  }

  ghost predicate OthersKept(was: map<nat, Meta>, now: map<nat, Meta>, front: seq<nat>) {
    && (forall x :: x !in front ==> (x in now <==> x in was))
    && (forall x :: x in was && (x !in front || Terminal(was[x].state)) ==> x in now && now[x] == was[x])
  }

  /**
   * After the turns of `front`, from the state `s` in which recover began: the other records and the terminal ones
   * are as they were, those that were in progress say failed, and only jobs that were waiting are live or went through
   * the fork loop.
   */
  ghost predicate Underway(s: State, t: State, front: seq<nat>) {
    && OthersKept(s.world.disk, t.world.disk, front)
    && (forall x :: x in front && InProgress(s.world.disk, x) ==> HasFailed(t.world, x))
    && (forall x :: x in t.live ==> x in front && StillWaiting(s.world.disk, x))
    && LaunchedWaiting(s.world.disk, s.world.loops, t.world.loops)
  }

  lemma {:induction false} AmongIsSubset(a: seq<nat>, b: seq<nat>)
    requires Among(a, b)
    ensures forall x :: x in a ==> x in b
    decreases |b|
  {
    if a != [] {
      if Among(a, b[1..]) {
        AmongIsSubset(a, b[1..]);
      } else {
        AmongIsSubset(a[1..], b[1..]);
        assert a == [b[0]] + a[1..];
      }
      assert b == [b[0]] + b[1..];
    }
  }

  lemma {:induction false} PicksAreQueued(o: Oracle, s: State)
    ensures forall x :: x in Picks(o, s) ==> x in s.queue
    decreases |s.queue|
  {
    hide Valid, Launch, Best;
    if !(s.shuttingDown || s.slotsUsed >= s.slotsMax) {
      var best := Best(s.live, s.queue);
      if best.Some? {
        PicksAreQueued(o, Launch(o, s.(queue := RemoveAll(s.queue, best.value)), best.value));
      }
    }
  }

  /** Schedule launches jobs of its queue only. */
  lemma ScheduleLaunchesQueued(o: Oracle, s: State) returns (l: seq<nat>)
    requires Inv(s)
    ensures Schedule(o, s).world.loops == s.world.loops + l && forall x :: x in l ==> x in s.live
  {
    hide Valid, Core, Busy, Draining, Schedule, Picks, Among;
    l := LaunchesAreAmongPicks(o, s);
    AmongIsSubset(l, Picks(o, s));
    PicksAreQueued(o, s);
    QueuedLive(s);
  }

  lemma EnqueueUnderway(o: Oracle, s: State, t: State, front: seq<nat>, id: nat)
    requires Inv(t) && !t.shuttingDown && !t.booted && Underway(s, t, front) && id !in front
    requires StillWaiting(t.world.disk, id)
    ensures Underway(s, Enqueue(o, t, id), front + [id])
  {
    hide Valid, Problem, Save, SaveBehind, Core, Busy, Draining, WorldInv, Schedule, Carried, CarriedBut, Over,
         Underway, HasFailed;
    EnqueueKeeps(o, t, id);
    RecordOf(t, id);
    InvalidHasProblem(t.world.disk[id]);
    NotLiveYet(s, t, front, id);
    var m := t.world.disk[id];
    if !Valid(m) {
      var f := m.(state := Failed, error := Problem(m).value, finishedMs := o(t.calls).realtime);
      CloseRecord(o, t, t.(calls := t.calls + 1), id, f);
      SavedAsFailed(o, t.(calls := t.calls + 1), f);
      ClosedUnderway(s, t, Enqueue(o, t, id), front, id);
    } else {
      AdmitKeeps(o, t, id);
      var m: GoodMeta := m.(state := Queued);
      var u := Save(o, t, m).(queue := t.queue + [id], live := t.live[id := NewJob(m)]);
      var l := ScheduleLaunchesQueued(o, u);
      ScheduleKeeps(o, u);
      AdmittedUnderway(s, t, u, front, id, m);
      CarriedUnderway(s, u, Schedule(o, u), front + [id], l);
    }
  }

  lemma NotLiveYet(s: State, t: State, front: seq<nat>, id: nat)
    requires Underway(s, t, front) && id !in front
    ensures id !in t.live
  {
    hide Valid;
  }

  lemma ClosedUnderway(s: State, t: State, u: State, front: seq<nat>, id: nat)
    requires Underway(s, t, front) && Closed(t, u, id) && id !in front && !Terminal(t.world.disk[id].state)
    requires HasFailed(u.world, id)
    ensures Underway(s, u, front + [id])
  {
    hide Valid, Over, StillWaiting, InProgress, Terminal;
  }

  lemma SavedAsFailed(o: Oracle, s: State, m: Meta)
    requires m.state.Failed? && m.id in s.world.disk
    ensures HasFailed(Save(o, s, m).world, m.id)
  {
    hide Valid, Rule, Aimed;
  }

  lemma AdmittedUnderway(s: State, t: State, u: State, front: seq<nat>, id: nat, m: GoodMeta)
    requires Underway(s, t, front) && id !in front && StillWaiting(t.world.disk, id) && Admitted(t, u, id, m)
    ensures Underway(s, u, front + [id])
  {
    hide Valid, LaunchedWaiting;
  }

  lemma CarriedUnderway(s: State, u: State, v: State, front: seq<nat>, l: seq<nat>)
    requires Underway(s, u, front) && Carried(u, v)
    requires v.world.loops == u.world.loops + l && forall x :: x in l ==> x in u.live
    ensures Underway(s, v, front)
  {
    NotLiveStays(s, u, v, front);
    CarriedKept(s, u, v, front);
    hide Valid, Over, OthersKept, LaunchedWaiting, HasFailed;
    LaunchedMore(s.world.disk, s.world.loops, u.world.loops, l);
  }

  lemma CarriedKept(s: State, u: State, v: State, front: seq<nat>)
    requires Underway(s, u, front) && Carried(u, v)
    ensures OthersKept(s.world.disk, v.world.disk, front)
  {
    hide Valid, Over, HasFailed, LaunchedWaiting;
  }

  /** What has failed is not live, so nothing happens to its record. */
  lemma NotLiveStays(s: State, u: State, v: State, front: seq<nat>)
    requires Underway(s, u, front) && Carried(u, v)
    ensures forall x :: x in front && InProgress(s.world.disk, x) ==> HasFailed(v.world, x)
  {
    hide Valid, Over, LaunchedWaiting, Terminal;
    forall x | x in front && InProgress(s.world.disk, x) ensures HasFailed(v.world, x) {
      assert HasFailed(u.world, x) && x !in u.live;
    }
  }

  lemma LaunchedMore(disk: map<nat, Meta>, from: seq<nat>, to: seq<nat>, l: seq<nat>)
    requires LaunchedWaiting(disk, from, to) && forall x :: x in l ==> StillWaiting(disk, x)
    ensures LaunchedWaiting(disk, from, to + l)
  {
    hide StillWaiting;
  }

  lemma FailUnderway(o: Oracle, s: State, t: State, front: seq<nat>, id: nat)
    requires Inv(t) && Underway(s, t, front) && id !in front
    requires InProgress(t.world.disk, id)
    ensures var u := RecoverOne(o, t, id); Underway(s, u, front + [id]) && Over(u.world, id)
  {
    hide Valid, Inv, ParsedProcs, KillLeftovers, CarriedBut, Save, Over, Underway, HasFailed;
    NotLiveYet(s, t, front, id);
    var m := t.world.disk[id];
    var k := KillLeftovers(o, t, id, ParsedProcs(m.procs));
    LeftoversKeep(o, t, id);
    var f := m.(state := Failed, error := RESTARTED, finishedMs := o(k.calls).realtime);
    RecordIsOwn(t, id);
    CloseRecord(o, k, k.(calls := k.calls + 1), id, f);
    SameWorldUnderway(s, t, k, front);
    SavedAsFailed(o, k.(calls := k.calls + 1), f);
    ClosedUnderway(s, k, RecoverOne(o, t, id), front, id);
    FailLeftover(o, t, id);
  }

  lemma SameWorldUnderway(s: State, t: State, k: State, front: seq<nat>)
    requires Underway(s, t, front) && k.world == t.world && k.live == t.live
    ensures Underway(s, k, front)
  {
    hide Valid;
  }

  lemma {:induction false} RecoverUnderway(o: Oracle, s: State, ids: seq<nat>)
    requires Inv(s) && s.live == map[] && !s.booted && !s.shuttingDown && Distinct(ids)
    ensures var t := RecoverAll(o, s, ids); Underway(s, t, ids) && Inv(t) && !t.booted && !t.shuttingDown
  {
    hide Valid, Inv, RecoverOne, Underway, Over;
    if ids == [] {
      UnderwaySelf(s);
    } else {
      var front, id := ids[..|ids| - 1], ids[|ids| - 1];
      assert ids == front + [id];
      RecoverUnderway(o, s, front);
      RecoverAllKeeps(o, s, ids);
      TurnUnderway(o, s, RecoverAll(o, s, front), front, id);
      RecoveringFlags(RecoverAll(o, s, ids), ids);
    }
  }

  lemma UnderwaySelf(s: State)
    requires s.live == map[]
    ensures Underway(s, s, [])
  {
    hide Valid;
  }

  lemma RecoveringFlags(t: State, ids: seq<nat>)
    requires Recovering(t, ids)
    ensures !t.booted && !t.shuttingDown
  {
    hide Valid, Over;
  }

  lemma TurnUnderway(o: Oracle, s: State, t: State, front: seq<nat>, id: nat)
    requires Inv(t) && !t.shuttingDown && !t.booted && Underway(s, t, front) && id !in front
    ensures Underway(s, RecoverOne(o, t, id), front + [id])
  {
    hide Valid, Inv, ParsedProcs, KillLeftovers, Enqueue, Save, Over, Underway;
    if InProgress(t.world.disk, id) {
      FailUnderway(o, s, t, front, id);
    } else if StillWaiting(t.world.disk, id) {
      EnqueueUnderway(o, s, t, front, id);
    } else {
      NothingUnderway(s, t, front, id);
    }
  }

  lemma NothingUnderway(s: State, t: State, front: seq<nat>, id: nat)
    requires Underway(s, t, front) && id !in front && !InProgress(t.world.disk, id)
    ensures Underway(s, t, front + [id])
  {
    hide Valid, StillWaiting, HasFailed;
  }

  /** The turn of a job finds the record that was there when recover began, and the job not live. */
  lemma TurnSeesTheStart(o: Oracle, s: State, ids: seq<nat>, j: nat)
    requires Inv(s) && s.live == map[] && !s.booted && !s.shuttingDown && Distinct(ids) && j < |ids|
    ensures var t, id := RecoverAll(o, s, ids[..j]), ids[j];
      && id !in t.live && (id in t.world.disk <==> id in s.world.disk)
      && (id in s.world.disk ==> t.world.disk[id] == s.world.disk[id])
  {
    hide Valid, Inv, RecoverAll, StillWaiting;
    RecoverUnderway(o, s, ids[..j]);
    assert ids[j] !in ids[..j];
  }

  /**
   * So the records that were in progress when recover began say failed afterwards and the terminal ones are as they
   * were; none of those jobs goes through the fork loop, so every job it launches was waiting.
   */
  lemma RecoverSeparates(o: Oracle, s: State, ids: seq<nat>, id: nat)
    requires Inv(s) && s.live == map[] && !s.booted && !s.shuttingDown && Distinct(ids)
    requires forall x :: x in s.world.disk ==> x in ids
    requires s.world == Replay(s.log) && id in s.world.disk
    ensures var u := Recover(o, s, ids);
      && |s.log| <= |u.log| && id in ids
      && id in u.world.disk
      && (if StillWaiting(s.world.disk, id) then id in u.live || Over(u.world, id)
          else id !in u.live && NoLoopBetween(u.log, |s.log|, |u.log|, id)
               && (if InProgress(s.world.disk, id) then HasFailed(u.world, id)
                   else u.world.disk[id] == s.world.disk[id]))
  {
    hide Valid, Inv, RecoverAll, Over, Replay, Extends, Underway, Terminal;
    RecoverKeeps(o, s, ids);
    RecoverGrows(o, s, ids);
    RecoverUnderway(o, s, ids);
    RecordIsOwn(s, id);
    var u := Recover(o, s, ids);
    ThreeKinds(s.world.disk[id].state);
    UnderwayAt(s, RecoverAll(o, s, ids), ids, id);
    RecordStays(s, u, id);
    if !StillWaiting(s.world.disk, id) {
      LoopsOfOthers(s, u, id);
    }
  }

  lemma RecordStays(s: State, t: State, id: nat)
    requires Extends(s, t) && s.world == Replay(s.log) && id in s.world.disk
    ensures |s.log| <= |t.log| && id in t.world.disk
  {
    hide Valid, Replay;
    AtEnd(t.log);
    RecordsStay(t.log, |s.log|, |t.log|);
  }

  /** So it is at every restart of a run. */
  lemma RestartsSeparate(o: Oracle, ss: seq<State>, ps: seq<Step>, k: nat, ids: seq<nat>, id: nat)
    requires Run(o, ss, ps) && k < |ps| && ps[k] == Do(Event.Boot(ids)) && id in ss[k].world.disk
    ensures var s, u := ss[k], ss[k + 1];
      && |s.log| <= |u.log| && id in u.world.disk
      && (if StillWaiting(s.world.disk, id) then id in u.live || Over(u.world, id)
          else id !in u.live && NoLoopBetween(u.log, |s.log|, |u.log|, id)
               && (if InProgress(s.world.disk, id) then HasFailed(u.world, id)
                   else u.world.disk[id] == s.world.disk[id]))
  {
    hide Valid, Inv, Recover, Over, Replay, StillWaiting, InProgress, HasFailed;
    RunKeepsInv(o, ss, ps, k);
    assert CanStep(o, ss[k], ps[k]);
    RecoverSeparates(o, ss[k], ids, id);
  }

  lemma ThreeKinds(s: JobState)
    ensures s in {Submitted, Queued} || s in {Running, Starting, Persisting} || Terminal(s) || s.UnknownState?
    ensures Terminal(s) ==> s !in {Submitted, Queued} && s !in {Running, Starting, Persisting}
  {
  }

  lemma UnderwayAt(s: State, t: State, ids: seq<nat>, id: nat)
    requires Underway(s, t, ids) && id in s.world.disk
    ensures Terminal(s.world.disk[id].state) ==> id in t.world.disk && t.world.disk[id] == s.world.disk[id]
    ensures InProgress(s.world.disk, id) && id in ids ==> HasFailed(t.world, id)
    ensures !StillWaiting(s.world.disk, id) ==> id !in t.live
    ensures LaunchedWaiting(s.world.disk, s.world.loops, t.world.loops)
  {
    hide Valid, Terminal;
  }

  lemma LoopsOfOthers(s: State, t: State, id: nat)
    requires Extends(s, t) && s.world == Replay(s.log) && !StillWaiting(s.world.disk, id)
    requires LaunchedWaiting(s.world.disk, s.world.loops, t.world.loops)
    ensures |s.log| <= |t.log| && NoLoopBetween(t.log, |s.log|, |t.log|, id)
  {
    hide Valid, Replay, StillWaiting;
    var n, l := |s.log|, t.world.loops[|s.world.loops|..];
    AtEnd(t.log);
    assert t.world.loops == s.world.loops + l;
    NoLoopOf(t.log, n, |t.log|, id, l);
  }
}
