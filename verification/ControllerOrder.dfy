/** The order in which queued jobs are launched: priority descending, then id ascending. */
module ControllerOrder {
  import opened Base
  import opened MetaCodec
  import opened Procs
  import opened Validate
  import opened History
  import opened ControllerSpec
  import opened ControllerInv
  import opened ControllerKeeps
  import opened ControllerLaunch
  import opened ControllerLines
  import opened ControllerLog
  import opened ControllerProgress

  // ---------- the sorted queue ----------

  /** The queue in the order in which pick_next would take it. */
  function DrainOrder(live: map<nat, LiveJob>, queue: seq<nat>): (d: seq<nat>)
    ensures forall x :: x in d <==> x in queue && Eligible(live, x)
    decreases |queue|
  {
    var best := Best(live, queue);
    if best.None? then [] else [best.value] + DrainOrder(live, RemoveAll(queue, best.value))
  }

  /** Eligible jobs, each once, sorted. */
  ghost predicate InOrder(live: map<nat, LiveJob>, d: seq<nat>) {
    && (forall i :: 0 <= i < |d| ==> Eligible(live, d[i]))
    && (forall i, j :: 0 <= i < j < |d| ==> d[i] != d[j] && Before(live, d[i], d[j]))
  }

  /** The order is sorted; its elements are the eligible part of the queue. */
  lemma {:induction false} DrainOrderIsSorted(live: map<nat, LiveJob>, queue: seq<nat>)
    ensures InOrder(live, DrainOrder(live, queue))
    ensures forall x :: x in DrainOrder(live, queue) <==> x in queue && Eligible(live, x)
    decreases |queue|
  {
    hide Valid, InOrder;
    var best := Best(live, queue);
    if best.Some? {
      var rest := RemoveAll(queue, best.value);
      DrainOrderIsSorted(live, rest);
      assert forall x :: x in DrainOrder(live, rest) ==> x != best.value && Before(live, best.value, x);
      FirstInOrder(live, best.value, DrainOrder(live, rest));
    } else {
      EmptyInOrder(live);
    }
  }

  /** In plain terms: what comes first has the higher priority, or the same priority and the smaller id. */
  lemma HigherPriorityFirst(live: map<nat, LiveJob>, queue: seq<nat>, i: nat, j: nat)
    requires i < j < |DrainOrder(live, queue)|
    ensures var a, b := DrainOrder(live, queue)[i], DrainOrder(live, queue)[j];
      && a in live && b in live && live[a].meta.state.Queued? && live[b].meta.state.Queued?
      && live[a].meta.priority >= live[b].meta.priority
      && (live[a].meta.priority == live[b].meta.priority ==> a < b)
  {
    hide Valid, DrainOrder;
    DrainOrderIsSorted(live, queue);
  }

  lemma EmptyInOrder(live: map<nat, LiveJob>)
    ensures InOrder(live, [])
  {
    hide Valid;
  }

  lemma FirstInOrder(live: map<nat, LiveJob>, b: nat, e: seq<nat>)
    requires InOrder(live, e) && Eligible(live, b)
    requires forall x :: x in e ==> x in live && x != b && Before(live, b, x)
    ensures InOrder(live, [b] + e)
  {
    hide Valid, Before;
    var d := [b] + e;
    forall i, j | 0 <= i < j < |d| ensures d[i] in live && d[j] in live && d[i] != d[j] && Before(live, d[i], d[j]) {
      assert d[j] == e[j - 1] && e[j - 1] in e;
      if i > 0 {
        assert d[i] == e[i - 1];
      }
    }
  }

  /** Only the records of the queued jobs matter. */
  lemma {:induction false} DrainOrderSame(a: map<nat, LiveJob>, b: map<nat, LiveJob>, queue: seq<nat>)
    requires forall x :: x in queue ==> (x in a <==> x in b) && (x in a ==> a[x] == b[x])
    ensures DrainOrder(a, queue) == DrainOrder(b, queue)
    decreases |queue|
  {
    hide Valid;
    BestSame(a, b, queue);
    var best := Best(a, queue);
    if best.Some? {
      DrainOrderSame(a, b, RemoveAll(queue, best.value));
    }
  }

  lemma {:induction false} BestSame(a: map<nat, LiveJob>, b: map<nat, LiveJob>, queue: seq<nat>)
    requires forall x :: x in queue ==> (x in a <==> x in b) && (x in a ==> a[x] == b[x])
    ensures Best(a, queue) == Best(b, queue)
  {
    hide Valid;
    if queue != [] {
      BestSame(a, b, queue[..|queue| - 1]);
    }
  }

  // ---------- what schedule picks ----------

  /** The jobs one call of schedule takes from the queue, in order. */
  function Picks(o: Oracle, s: State): seq<nat>
    decreases |s.queue|
  {
    if s.shuttingDown || s.slotsUsed >= s.slotsMax then []
    else
      var best := Best(s.live, s.queue);
      if best.None? then []
      else [best.value] + Picks(o, Launch(o, s.(queue := RemoveAll(s.queue, best.value)), best.value))
  }

  /** Launching one job leaves the order of the others alone, whether it starts or fails. */
  lemma LaunchKeepsOrder(o: Oracle, s: State, id: nat)
    requires Inv(s) && !s.shuttingDown && id in s.live && s.live[id].meta.state.Queued? && s.slotsUsed < s.slotsMax
    ensures var u := Launch(o, s.(queue := RemoveAll(s.queue, id)), id);
      && Inv(u) && u.queue == RemoveAll(s.queue, id)
      && DrainOrder(u.live, u.queue) == DrainOrder(s.live, RemoveAll(s.queue, id))
  {
    hide Valid, Inv, Launch, Dropped, Launched, DrainOrder;
    var u := Launch(o, s.(queue := RemoveAll(s.queue, id)), id);
    var cs := LaunchKeeps(o, s, id);
    if Dropped(s, u, id) {
      DroppedLive(s, u, id);
    } else {
      LaunchedMemory(s, u, id, cs);
    }
    DrainOrderSame(s.live, u.live, u.queue);
  }

  /** A call of schedule takes the next jobs of the order, and leaves the rest of it. */
  lemma {:induction false} PicksFollowTheOrder(o: Oracle, s: State)
    requires Inv(s)
    ensures var u := Schedule(o, s);
      DrainOrder(s.live, s.queue) == Picks(o, s) + DrainOrder(u.live, u.queue)
    decreases |s.queue|
  {
    hide Valid, Core, Busy, Draining, Launch, Best, DrainOrder;
    DrainOrderStep(s.live, s.queue);
    if !(s.shuttingDown || s.slotsUsed >= s.slotsMax) {
      var best := Best(s.live, s.queue);
      if best.Some? {
        var u := Launch(o, s.(queue := RemoveAll(s.queue, best.value)), best.value);
        LaunchKeepsOrder(o, s, best.value);
        PicksFollowTheOrder(o, u);
        hide Inv;
        var v := Schedule(o, u);
        assert [best.value] + (Picks(o, u) + DrainOrder(v.live, v.queue))
            == [best.value] + Picks(o, u) + DrainOrder(v.live, v.queue);
      }
    }
  }

  /** `a` is what is left of `b` when some elements are taken out. */
  predicate Among(a: seq<nat>, b: seq<nat>)
    decreases |b|
  {
    a == [] || (b != [] && (Among(a, b[1..]) || (a[0] == b[0] && Among(a[1..], b[1..]))))
  }

  lemma {:induction false} AmongLater(c: seq<nat>, b: seq<nat>, d: seq<nat>)
    requires Among(c, d)
    ensures Among(c, b + d)
    decreases |b|
  {
    if b == [] {
      assert b + d == d;
    } else {
      AmongLater(c, b[1..], d);
      assert (b + d)[1..] == b[1..] + d;
    }
  }

  lemma {:induction false} AmongJoined(a: seq<nat>, b: seq<nat>, c: seq<nat>, d: seq<nat>)
    requires Among(a, b) && Among(c, d)
    ensures Among(a + c, b + d)
    decreases |b|
  {
    if a == [] {
      assert a + c == c;
      AmongLater(c, b, d);
    } else {
      assert (b + d)[1..] == b[1..] + d;
      if Among(a, b[1..]) {
        AmongJoined(a, b[1..], c, d);
      } else {
        assert (a + c)[1..] == a[1..] + c;
        AmongJoined(a[1..], b[1..], c, d);
      }
    }
  }

  /** The jobs that one call of schedule takes through the fork loop are among its picks, in the same order. */
  lemma {:induction false} LaunchesAreAmongPicks(o: Oracle, s: State) returns (l: seq<nat>)
    requires Inv(s)
    ensures Schedule(o, s).world.loops == s.world.loops + l && Among(l, Picks(o, s))
    decreases |s.queue|
  {
    hide Valid, Inv, Launch, Best, Among, Dropped, Launched, Schedule, Picks;
    ScheduleTurn(o, s);
    var best := Best(s.live, s.queue);
    if s.shuttingDown || s.slotsUsed >= s.slotsMax || best.None? {
      l := [];
      AmongNothing([]);
    } else {
      var id := best.value;
      var u := Launch(o, s.(queue := RemoveAll(s.queue, id)), id);
      var cs := LaunchKeeps(o, s, id);
      var first := LaunchLoops(s, u, id, cs);
      LaunchTakesOne(o, s, id);
      var rest := LaunchesAreAmongPicks(o, u);
      l := first + rest;
      AmongJoined(first, [id], rest, Picks(o, u));
      assert s.world.loops + first + rest == s.world.loops + l;
    }
  }

  /** One turn of schedule, and what it picks. */
  lemma ScheduleTurn(o: Oracle, s: State)
    ensures var best := Best(s.live, s.queue);
      if s.shuttingDown || s.slotsUsed >= s.slotsMax || best.None? then Schedule(o, s) == s && Picks(o, s) == []
      else
        var u := Launch(o, s.(queue := RemoveAll(s.queue, best.value)), best.value);
        Schedule(o, s) == Schedule(o, u) && Picks(o, s) == [best.value] + Picks(o, u)
  {
    hide Valid, Launch, Best;
  }

  lemma LaunchTakesOne(o: Oracle, s: State, id: nat)
    requires id in s.queue
    ensures |Launch(o, s.(queue := RemoveAll(s.queue, id)), id).queue| < |s.queue|
  {
    hide Valid, Launch;
  }

  lemma AmongNothing(b: seq<nat>)
    ensures Among([], b)
  {
  }

  lemma LaunchLoops(s: State, u: State, id: nat, cs: seq<Child>) returns (l: seq<nat>)
    requires Dropped(s, u, id) || Launched(s, u, id, cs)
    ensures u.world.loops == s.world.loops + l && Among(l, [id])
  {
    hide Valid, Over, SameElsewhere, NewlyRunning, Joined, FreshPids;
    if u.world.loops == s.world.loops {
      l := [];
    } else {
      l := [id];
    }
  }

  lemma DrainOrderStep(live: map<nat, LiveJob>, queue: seq<nat>)
    ensures var best := Best(live, queue);
      best.Some? ==> DrainOrder(live, queue) == [best.value] + DrainOrder(live, RemoveAll(queue, best.value))
  {
  }

  // ---------- draining a queue ----------

  /** The queue and the records of the queued jobs are as they were. */
  ghost predicate SameQueue(s: State, t: State) {
    t.queue == s.queue && forall x :: x in s.queue ==> x in s.live && x in t.live && t.live[x] == s.live[x]
  }

  lemma {:induction false} NothingToRemove(q: seq<nat>, id: nat)
    requires id !in q
    ensures RemoveAll(q, id) == q
  {
    if q != [] {
      NothingToRemove(q[..|q| - 1], id);
      assert q == q[..|q| - 1] + [q[|q| - 1]];
    }
  }

  /** Reaping, with all that follows from it, touches no queued job. */
  lemma NoteReapKeepsQueue(o: Oracle, s: State, pid: int32, how: WaitStatus)
    requires Inv(s)
    ensures SameQueue(s, NoteReap(o, s, pid, how))
  {
    hide Valid, Core, Busy, Draining, Emit, Mark, RequestStop, Finalize, BusyBut, Marked, AllReaped, AnyBad, SameQueue;
    EmitFrame(s, Waited(pid));
    QueuedLive(s);
    if pid !in s.pidOwner {
      QueueStays(s, Emit(s, Waited(pid)));
    } else {
      var id := s.pidOwner[pid];
      MarkKeeps(s, id, pid, how);
      var u := Emit(s, Waited(pid));
      var t := u.(live := u.live[id := u.live[id].(procs := Mark(u.live[id].procs, pid, how))]);
      NotQueued(s, id);
      QueueStays(s, t);
      ReapedKeepsQueue(o, s, t, id);
    }
  }

  lemma QueuedLive(s: State)
    requires Core(s)
    ensures forall x :: x in s.queue ==> x in s.live
  {
    hide Valid, JobInv, WorldInv, SlotsExact, OwnersLive, OthersAtRest;
  }

  lemma NotQueued(s: State, id: nat)
    requires Core(s) && id in s.live && s.live[id].meta.state.Running?
    ensures id !in s.queue
  {
    hide Valid, Shared, OnDisk, RunningJob;
    assert JobInv(s, id);
  }

  lemma QueueStays(s: State, t: State)
    requires t.queue == s.queue && forall x :: x in s.queue ==> x in s.live && x in t.live && t.live[x] == s.live[x]
    ensures SameQueue(s, t)
  {
  }

  lemma ReapedKeepsQueue(o: Oracle, s: State, t: State, id: nat)
    requires SameQueue(s, t) && id !in s.queue
    requires Core(t) && BusyBut(t, id) && Draining(t) && id in t.live && t.live[id].meta.state.Running?
    ensures var ps := t.live[id].procs;
      var u := if AnyBad(ps) && t.live[id].stop == NoStop then RequestStop(o, t, id, StopFailed) else t;
      SameQueue(s, if AllReaped(ps) then Finalize(o, u, id) else u)
  {
    hide Valid, Core, RequestStop, Finalize, Draining, AllReaped, AnyBad, BusyBut, Over;
    var ps := t.live[id].procs;
    var u := if AnyBad(ps) && t.live[id].stop == NoStop then RequestStop(o, t, id, StopFailed) else t;
    if AnyBad(ps) && t.live[id].stop == NoStop {
      RequestStopKeeps(o, t, id, StopFailed);
      StoppedJob(t, u, id);
    }
    if AllReaped(ps) {
      FinalizeKeeps(o, u, id);
      NothingToRemove(u.queue, id);
    }
  }

  /** Children ending and calls of schedule, in any order: what happens while a fixed queue drains. */
  datatype Turn = Ends(pid: int32, how: WaitStatus) | Schedules

  function TurnOf(o: Oracle, s: State, t: Turn): State {
    match t
    case Ends(pid, how) => NoteReap(o, s, pid, how)
    case Schedules => Schedule(o, s)
  }

  /** All the picks made over some turns. */
  function AllPicks(o: Oracle, s: State, turns: seq<Turn>): seq<nat>
    decreases |turns|
  {
    if turns == [] then []
    else (if turns[0].Schedules? then Picks(o, s) else []) + AllPicks(o, TurnOf(o, s, turns[0]), turns[1..])
  }

  function AfterTurns(o: Oracle, s: State, turns: seq<Turn>): State
    decreases |turns|
  {
    if turns == [] then s else AfterTurns(o, TurnOf(o, s, turns[0]), turns[1..])
  }

  /** While no line arrives the queue drains in the sorted order, whatever ends when and whichever launches fail. */
  lemma {:induction false} QueueDrainsInOrder(o: Oracle, s: State, turns: seq<Turn>)
    requires Inv(s)
    ensures var u := AfterTurns(o, s, turns);
      Inv(u) && DrainOrder(s.live, s.queue) == AllPicks(o, s, turns) + DrainOrder(u.live, u.queue)
    decreases |turns|
  {
    hide Valid, Inv, Picks, DrainOrder, NoteReap, Schedule, SameQueue;
    if turns != [] {
      var t := TurnOf(o, s, turns[0]);
      match turns[0] {
        case Ends(pid, how) =>
          NoteReapKeeps(o, s, pid, how);
          NoteReapKeepsQueue(o, s, pid, how);
          SameQueueSameOrder(s, t);
        case Schedules =>
          ScheduleKeeps(o, s);
          PicksFollowTheOrder(o, s);
      }
      QueueDrainsInOrder(o, t, turns[1..]);
      var u := AfterTurns(o, t, turns[1..]);
      var a := if turns[0].Schedules? then Picks(o, s) else [];
      var b, c := AllPicks(o, t, turns[1..]), DrainOrder(u.live, u.queue);
      assert a + (b + c) == a + b + c;
    }
  }

  /** One turn takes through the fork loop jobs that are among its picks. */
  lemma TurnLaunches(o: Oracle, s: State, t: Turn) returns (l: seq<nat>)
    requires Inv(s)
    ensures var u := TurnOf(o, s, t);
      Inv(u) && u.world.loops == s.world.loops + l && Among(l, if t.Schedules? then Picks(o, s) else [])
  {
    hide Valid, Inv, Picks, NoteReap, Schedule, Among;
    match t {
      case Ends(pid, how) =>
        NoteReapKeeps(o, s, pid, how);
        ReapLaunchesNothing(o, s, pid, how);
        l := [];
        AmongNothing([]);
      case Schedules =>
        ScheduleKeeps(o, s);
        l := LaunchesAreAmongPicks(o, s);
    }
  }

  lemma {:induction false} TurnsLaunch(o: Oracle, s: State, turns: seq<Turn>) returns (l: seq<nat>)
    requires Inv(s)
    ensures AfterTurns(o, s, turns).world.loops == s.world.loops + l && Among(l, AllPicks(o, s, turns))
    decreases |turns|
  {
    hide Valid, Inv, Picks, TurnOf, Among;
    if turns == [] {
      l := [];
      AmongNothing([]);
    } else {
      var t := TurnOf(o, s, turns[0]);
      var first := TurnLaunches(o, s, turns[0]);
      var rest := TurnsLaunch(o, t, turns[1..]);
      l := first + rest;
      assert s.world.loops + l == t.world.loops + rest;
      AmongJoined(first, if turns[0].Schedules? then Picks(o, s) else [], rest, AllPicks(o, t, turns[1..]));
    }
  }

  lemma {:induction false} TurnsExtend(o: Oracle, s: State, turns: seq<Turn>)
    ensures Extends(s, AfterTurns(o, s, turns))
    decreases |turns|
  {
    hide Valid, NoteReap, Schedule, Extends;
    if turns == [] {
      ControllerLog.Same(s, s);
    } else {
      var t := TurnOf(o, s, turns[0]);
      match turns[0] {
        case Ends(pid, how) => NoteReapGrows(o, s, pid, how);
        case Schedules => ScheduleGrows(o, s);
      }
      TurnsExtend(o, t, turns[1..]);
      Then(s, t, AfterTurns(o, t, turns[1..]));
    }
  }

  /**
   * Over all those turns too the jobs that reach the fork loop do so in the sorted order: the fork loops these turns
   * add to the log are what is left of the sorted queue when those that could not be launched are taken out.
   */
  lemma LaunchesFollowTheOrder(o: Oracle, s: State, turns: seq<Turn>) returns (l: seq<nat>)
    requires Inv(s) && s.world == Replay(s.log)
    ensures var u := AfterTurns(o, s, turns);
      |s.log| <= |u.log| && u.log[..|s.log|] == s.log && LoopsIn(u.log) == LoopsIn(s.log) + l
    ensures Among(l, AllPicks(o, s, turns)) && Among(l, DrainOrder(s.live, s.queue))
  {
    hide Valid, Inv, AllPicks, AfterTurns, DrainOrder, Among, Replay, LoopsIn;
    QueueDrainsInOrder(o, s, turns);
    l := TurnsLaunch(o, s, turns);
    var u := AfterTurns(o, s, turns);
    TurnsExtend(o, s, turns);
    LoopsOfLog(s.log);
    LoopsOfLog(u.log);
    AmongNothing(DrainOrder(u.live, u.queue));
    AmongJoined(l, AllPicks(o, s, turns), [], DrainOrder(u.live, u.queue));
    assert l + [] == l;
  }

  lemma ReapLaunchesNothing(o: Oracle, s: State, pid: int32, how: WaitStatus)
    requires Inv(s)
    ensures NoteReap(o, s, pid, how).world.loops == s.world.loops
  {
    hide Valid, Inv, NoteReap, Steady;
    NoteReapWinds(o, s, pid, how);
  }

  lemma SameQueueSameOrder(s: State, t: State)
    requires SameQueue(s, t)
    ensures DrainOrder(t.live, t.queue) == DrainOrder(s.live, s.queue)
  {
    hide Valid, DrainOrder;
    DrainOrderSame(s.live, t.live, s.queue);
  }
}
