/** What a restart does about the workers that the last controller left running. */
module Leftovers {
  import opened Base
  import opened MetaCodec
  import opened Procs
  import opened Validate
  import opened History
  import opened ControllerSpec
  import opened ControllerInv
  import opened ControllerLog
  import opened ControllerRecovery
  import opened ControllerRuns
  import opened CalmLogs

  // ---------- who is killed ----------

  /** The effect is on the log from `n` on. */
  ghost predicate LoggedSince(log: seq<Effect>, n: nat, e: Effect) {
    exists q :: n <= q < |log| && log[q] == e
  }

  /** Call `first + i` asks for the start time of process `i`; if the answer is the recorded one, it is killed. */
  ghost predicate LeftoversKilled(o: Oracle, log: seq<Effect>, n: nat, id: nat, ps: seq<ProcRef>, first: nat) {
    forall i :: 0 <= i < |ps| && ps[i].start != 0 && o(first + i).starttime == Some(ps[i].start) ==>
      LoggedSince(log, n, LeftoverKilled(id, ps[i].pid, ps[i].start, ps[i].start))
  }

  lemma LoggedLater(log: seq<Effect>, more: seq<Effect>, n: nat, e: Effect)
    requires LoggedSince(log, n, e) && log <= more
    ensures LoggedSince(more, n, e)
  {
    var q :| n <= q < |log| && log[q] == e;
    assert more[q] == e;
  }

  lemma KilledLater(o: Oracle, log: seq<Effect>, more: seq<Effect>, n: nat, id: nat, ps: seq<ProcRef>, first: nat)
    requires LeftoversKilled(o, log, n, id, ps, first) && log <= more
    ensures LeftoversKilled(o, more, n, id, ps, first)
  {
    hide LoggedSince;
    forall i | 0 <= i < |ps| && ps[i].start != 0 && o(first + i).starttime == Some(ps[i].start)
      ensures LoggedSince(more, n, LeftoverKilled(id, ps[i].pid, ps[i].start, ps[i].start))
    {
      LoggedLater(log, more, n, LeftoverKilled(id, ps[i].pid, ps[i].start, ps[i].start));
    }
  }

  lemma {:induction false} KillLeftoversKills(o: Oracle, s: State, id: nat, ps: seq<ProcRef>, n: nat)
    requires n <= |s.log|
    ensures var t := KillLeftovers(o, s, id, ps);
      s.log <= t.log && t.calls == s.calls + |ps| && LeftoversKilled(o, t.log, n, id, ps, s.calls)
  {
    hide Valid, Observe, LoggedSince, LeftoversKilled;
    if ps == [] {
      NoLeftovers(o, s.log, n, id, s.calls);
    } else {
      var front, p := ps[..|ps| - 1], ps[|ps| - 1];
      KillLeftoversKills(o, s, id, front, n);
      var t, u := KillLeftovers(o, s, id, front), KillLeftovers(o, s, id, ps);
      KilledLater(o, t.log, u.log, n, id, front, s.calls);
      if p.start != 0 && o(t.calls).starttime == Some(p.start) {
        LastIsLogged(t.log, n, LeftoverKilled(id, p.pid, p.start, p.start));
      }
      OneMoreLeftover(o, u.log, n, id, ps, s.calls);
    }
  }

  lemma NoLeftovers(o: Oracle, log: seq<Effect>, n: nat, id: nat, first: nat)
    ensures LeftoversKilled(o, log, n, id, [], first)
  {
  }

  lemma OneMoreLeftover(o: Oracle, log: seq<Effect>, n: nat, id: nat, ps: seq<ProcRef>, first: nat)
    requires ps != [] && LeftoversKilled(o, log, n, id, ps[..|ps| - 1], first)
    requires var p := ps[|ps| - 1];
      p.start != 0 && o(first + |ps| - 1).starttime == Some(p.start) ==>
        LoggedSince(log, n, LeftoverKilled(id, p.pid, p.start, p.start))
    ensures LeftoversKilled(o, log, n, id, ps, first)
  {
    hide LoggedSince;
    forall i | 0 <= i < |ps| && ps[i].start != 0 && o(first + i).starttime == Some(ps[i].start)
      ensures LoggedSince(log, n, LeftoverKilled(id, ps[i].pid, ps[i].start, ps[i].start))
    {
      if i < |ps| - 1 {
        assert ps[..|ps| - 1][i] == ps[i];
      }
    }
  }

  lemma LastIsLogged(log: seq<Effect>, n: nat, e: Effect)
    requires n <= |log|
    ensures LoggedSince(log + [e], n, e)
  {
    assert (log + [e])[|log|] == e;
  }

  /** What the turn of a job in progress leaves on the log. */
  lemma TurnKills(o: Oracle, s: State, id: nat, n: nat)
    requires n <= |s.log| && InProgress(s.world.disk, id)
    ensures LeftoversKilled(o, RecoverOne(o, s, id).log, n, id, ParsedProcs(s.world.disk[id].procs), s.calls)
  {
    hide Valid, KillLeftovers, Save, ParsedProcs, LeftoversKilled, Extends;
    var m := s.world.disk[id];
    var t := KillLeftovers(o, s, id, ParsedProcs(m.procs));
    KillLeftoversKills(o, s, id, ParsedProcs(m.procs), n);
    var f := m.(state := Failed, error := RESTARTED, finishedMs := o(t.calls).realtime);
    var u := t.(calls := t.calls + 1);
    SaveGrows(o, u, f);
    ExtendsIsPrefix(u, Save(o, u, f));
    KilledLater(o, t.log, RecoverOne(o, s, id).log, n, id, ParsedProcs(m.procs), s.calls);
  }

  lemma ExtendsIsPrefix(s: State, t: State)
    requires Extends(s, t)
    ensures s.log <= t.log
  {
    hide Valid, Replay;
  }

  lemma {:induction false} RecoverPrefix(o: Oracle, s: State, ids: seq<nat>, j: nat)
    requires !s.shuttingDown && j <= |ids|
    ensures RecoverAll(o, s, ids[..j]).log <= RecoverAll(o, s, ids).log
  {
    hide Valid, RecoverOne, Extends;
    if j == |ids| {
      assert ids[..j] == ids;
    } else {
      var front := ids[..|ids| - 1];
      assert front[..j] == ids[..j];
      RecoverPrefix(o, s, front, j);
      RecoverAllGrows(o, s, front);
      RecoverOneGrows(o, RecoverAll(o, s, front), ids[|ids| - 1]);
      ExtendsIsPrefix(RecoverAll(o, s, front), RecoverAll(o, s, ids));
    }
  }

  // ---------- and nobody else ----------

  /** Whom the log from `n` on says is killed for job `id`: a process whose start time was the recorded one. */
  ghost predicate OnlyLeftovers(o: Oracle, log: seq<Effect>, n: nat, id: nat, ps: seq<ProcRef>, first: nat) {
    n <= |log| && forall q :: n <= q < |log| && log[q].LeftoverKilled? && log[q].id == id ==>
      exists i :: 0 <= i < |ps| && ps[i].start != 0 && o(first + i).starttime == Some(ps[i].start)
                  && log[q] == LeftoverKilled(id, ps[i].pid, ps[i].start, ps[i].start)
  }

  lemma NoKillsYet(o: Oracle, log: seq<Effect>, id: nat)
    ensures OnlyLeftovers(o, log, |log|, id, [], 0)
  {
  }

  lemma OnlyMore(o: Oracle, base: seq<Effect>, log: seq<Effect>, n: nat, id: nat, ps: seq<ProcRef>, first: nat)
    requires OnlyLeftovers(o, base, n, id, ps, first) && base <= log
    requires forall q :: |base| <= q < |log| ==> !log[q].LeftoverKilled? || log[q].id != id
    ensures OnlyLeftovers(o, log, n, id, ps, first)
  {
    forall q | n <= q < |log| && log[q].LeftoverKilled? && log[q].id == id
      ensures exists i :: 0 <= i < |ps| && ps[i].start != 0 && o(first + i).starttime == Some(ps[i].start)
                          && log[q] == LeftoverKilled(id, ps[i].pid, ps[i].start, ps[i].start)
    {
      assert q < |base| && log[q] == base[q];
    }
  }

  lemma OnlyCalm(o: Oracle, base: seq<Effect>, log: seq<Effect>, n: nat, id: nat, ps: seq<ProcRef>, first: nat)
    requires OnlyLeftovers(o, base, n, id, ps, first) && Calm(base, log)
    ensures OnlyLeftovers(o, log, n, id, ps, first)
  {
    hide OnlyLeftovers;
    OnlyMore(o, base, log, n, id, ps, first);
  }

  /** One more process of the list is killed, or is not. */
  lemma OnlyOneMore(o: Oracle, base: seq<Effect>, log: seq<Effect>, n: nat, id: nat, ps: seq<ProcRef>, first: nat)
    requires ps != [] && OnlyLeftovers(o, base, n, id, ps[..|ps| - 1], first)
    requires var p := ps[|ps| - 1];
      log == if p.start != 0 && o(first + |ps| - 1).starttime == Some(p.start)
             then base + [LeftoverKilled(id, p.pid, p.start, p.start)] else base
    ensures OnlyLeftovers(o, log, n, id, ps, first)
  {
    forall q | n <= q < |log| && log[q].LeftoverKilled? && log[q].id == id
      ensures exists i :: 0 <= i < |ps| && ps[i].start != 0 && o(first + i).starttime == Some(ps[i].start)
                          && log[q] == LeftoverKilled(id, ps[i].pid, ps[i].start, ps[i].start)
    {
      if q < |base| {
        var front := ps[..|ps| - 1];
        assert log[q] == base[q];
        var i :| 0 <= i < |front| && front[i].start != 0 && o(first + i).starttime == Some(front[i].start)
                 && base[q] == LeftoverKilled(id, front[i].pid, front[i].start, front[i].start);
        assert ps[i] == front[i];
      } else {
        assert ps[|ps| - 1].start != 0;
      }
    }
  }

  lemma {:induction false} KillLeftoversOnly(o: Oracle, s: State, id: nat, ps: seq<ProcRef>, n: nat)
    requires OnlyLeftovers(o, s.log, n, id, [], 0)
    ensures OnlyLeftovers(o, KillLeftovers(o, s, id, ps).log, n, id, ps, s.calls)
  {
    hide Valid, Observe, OnlyLeftovers;
    if ps == [] {
      NobodyListed(o, s.log, n, id, s.calls);
    } else {
      var front := ps[..|ps| - 1];
      KillLeftoversOnly(o, s, id, front, n);
      KillLeftoversKills(o, s, id, front, 0);
      OnlyOneMore(o, KillLeftovers(o, s, id, front).log, KillLeftovers(o, s, id, ps).log, n, id, ps, s.calls);
    }
  }

  lemma NobodyListed(o: Oracle, log: seq<Effect>, n: nat, id: nat, first: nat)
    requires OnlyLeftovers(o, log, n, id, [], 0)
    ensures OnlyLeftovers(o, log, n, id, [], first)
  {
  }

  lemma {:induction false} KillLeftoversOther(o: Oracle, s: State, x: nat, xs: seq<ProcRef>, n: nat, id: nat,
                                              ps: seq<ProcRef>, first: nat)
    requires x != id && OnlyLeftovers(o, s.log, n, id, ps, first)
    ensures OnlyLeftovers(o, KillLeftovers(o, s, x, xs).log, n, id, ps, first)
  {
    hide Valid, Observe, OnlyLeftovers;
    if xs != [] {
      var t := KillLeftovers(o, s, x, xs[..|xs| - 1]);
      KillLeftoversOther(o, s, x, xs[..|xs| - 1], n, id, ps, first);
      OnlyMore(o, t.log, KillLeftovers(o, s, x, xs).log, n, id, ps, first);
    }
  }

  lemma TurnKillsOnly(o: Oracle, s: State, id: nat, n: nat)
    requires InProgress(s.world.disk, id) && OnlyLeftovers(o, s.log, n, id, [], 0)
    ensures OnlyLeftovers(o, RecoverOne(o, s, id).log, n, id, ParsedProcs(s.world.disk[id].procs), s.calls)
  {
    hide Valid, KillLeftovers, Save, ParsedProcs, OnlyLeftovers, Calm;
    var ps := ParsedProcs(s.world.disk[id].procs);
    KillLeftoversOnly(o, s, id, ps, n);
    LastSaveIsCalm(o, s, id);
    OnlyCalm(o, KillLeftovers(o, s, id, ps).log, RecoverOne(o, s, id).log, n, id, ps, s.calls);
  }

  lemma LastSaveIsCalm(o: Oracle, s: State, id: nat)
    requires InProgress(s.world.disk, id)
    ensures Calm(KillLeftovers(o, s, id, ParsedProcs(s.world.disk[id].procs)).log, RecoverOne(o, s, id).log)
  {
    hide Valid, KillLeftovers, Save, ParsedProcs, Calm;
    var m := s.world.disk[id];
    var t := KillLeftovers(o, s, id, ParsedProcs(m.procs));
    CalmSelf(t.log);
    SaveCalm(o, t.log, t.(calls := t.calls + 1),
             m.(state := Failed, error := RESTARTED, finishedMs := o(t.calls).realtime));
  }

  lemma OtherTurn(o: Oracle, s: State, x: nat, n: nat, id: nat, ps: seq<ProcRef>, first: nat)
    requires x != id && OnlyLeftovers(o, s.log, n, id, ps, first)
    ensures OnlyLeftovers(o, RecoverOne(o, s, x).log, n, id, ps, first)
  {
    hide Valid, KillLeftovers, Enqueue, Save, ParsedProcs, OnlyLeftovers, Calm;
    CalmSelf(s.log);
    EnqueueCalm(o, s.log, s, x);
    OnlyCalm(o, s.log, Enqueue(o, s, x).log, n, id, ps, first);
    if InProgress(s.world.disk, x) {
      var xs := ParsedProcs(s.world.disk[x].procs);
      KillLeftoversOther(o, s, x, xs, n, id, ps, first);
      LastSaveIsCalm(o, s, x);
      OnlyCalm(o, KillLeftovers(o, s, x, xs).log, RecoverOne(o, s, x).log, n, id, ps, first);
    }
  }

  /** The turns from `i` to `j` are not about this job. */
  lemma {:induction false} OtherTurns(o: Oracle, s: State, ids: seq<nat>, i: nat, j: nat, n: nat, id: nat,
                                      ps: seq<ProcRef>, first: nat)
    requires i <= j <= |ids| && OnlyLeftovers(o, RecoverAll(o, s, ids[..i]).log, n, id, ps, first)
    requires forall x :: i <= x < j ==> ids[x] != id
    ensures OnlyLeftovers(o, RecoverAll(o, s, ids[..j]).log, n, id, ps, first)
    decreases j
  {
    hide Valid, RecoverOne, RecoverAll, OnlyLeftovers;
    if i < j {
      OtherTurns(o, s, ids, i, j - 1, n, id, ps, first);
      TurnIsNext(o, s, ids, j - 1);
      OtherTurn(o, RecoverAll(o, s, ids[..j - 1]), ids[j - 1], n, id, ps, first);
    }
  }

  lemma RecoverKills(o: Oracle, s: State, ids: seq<nat>, id: nat) returns (first: nat)
    requires Inv(s) && s.live == map[] && !s.booted && !s.shuttingDown && Distinct(ids)
    requires InProgress(s.world.disk, id) && id in ids
    ensures LeftoversKilled(o, RecoverAll(o, s, ids).log, |s.log|, id, ParsedProcs(s.world.disk[id].procs), first)
    ensures OnlyLeftovers(o, RecoverAll(o, s, ids).log, |s.log|, id, ParsedProcs(s.world.disk[id].procs), first)
  {
    hide Valid, Inv, RecoverAll, LeftoversKilled, OnlyLeftovers, InProgress, ParsedProcs, RecoverOne, Extends;
    InProgressIsRecord(s.world.disk, id);
    var j :| 0 <= j < |ids| && ids[j] == id;
    var t, ps, n := RecoverAll(o, s, ids[..j]), ParsedProcs(s.world.disk[id].procs), |s.log|;
    TurnSeesTheStart(o, s, ids, j);
    SameProgress(s.world.disk, t.world.disk, id);
    RecoverAllGrows(o, s, ids[..j]);
    ExtendsIsPrefix(s, t);
    first := t.calls;
    TurnKills(o, t, id, n);
    TurnIsNext(o, s, ids, j);
    RecoverPrefix(o, s, ids, j + 1);
    KilledLater(o, RecoverOne(o, t, id).log, RecoverAll(o, s, ids).log, n, id, ps, first);
    NoTurns(o, s);
    NoKillsYet(o, s.log, id);
    assert ids[..0] == [] && ids[..|ids|] == ids;
    OtherTurns(o, s, ids, 0, j, n, id, [], 0);
    TurnKillsOnly(o, t, id, n);
    OtherTurns(o, s, ids, j + 1, |ids|, n, id, ps, first);
  }

  lemma NoTurns(o: Oracle, s: State)
    ensures RecoverAll(o, s, []) == s
  {
  }

  /**
   * At every restart of a run, for each job in progress recover asks once for the start time of each process its record
   * lists, in one run of calls, and kills exactly those whose start time is the recorded one.
   */
  lemma RestartKillsLeftovers(o: Oracle, ss: seq<State>, ps: seq<Step>, k: nat, ids: seq<nat>, id: nat)
    returns (first: nat)
    requires Run(o, ss, ps) && k < |ps| && ps[k] == Do(Event.Boot(ids)) && InProgress(ss[k].world.disk, id)
    ensures LeftoversKilled(o, ss[k + 1].log, |ss[k].log|, id, ParsedProcs(ss[k].world.disk[id].procs), first)
    ensures OnlyLeftovers(o, ss[k + 1].log, |ss[k].log|, id, ParsedProcs(ss[k].world.disk[id].procs), first)
  {
    hide Valid, Inv, RecoverAll, LeftoversKilled, OnlyLeftovers, InProgress, ParsedProcs, Handle;
    RunKeepsInv(o, ss, ps, k);
    assert CanStep(o, ss[k], ps[k]);
    BootIsRecover(o, ss[k], ids);
    InProgressIsRecord(ss[k].world.disk, id);
    first := RecoverKills(o, ss[k], ids, id);
  }

  lemma BootIsRecover(o: Oracle, s: State, ids: seq<nat>)
    ensures Handle(o, s, Event.Boot(ids)).log == RecoverAll(o, s, ids).log
  {
    hide Valid, RecoverAll;
  }

  lemma InProgressIsRecord(disk: map<nat, Meta>, id: nat)
    requires InProgress(disk, id)
    ensures id in disk
  {
  }

  lemma SameProgress(was: map<nat, Meta>, now: map<nat, Meta>, id: nat)
    requires InProgress(was, id) && id in now && now[id] == was[id]
    ensures InProgress(now, id)
  {
  }

  lemma TurnIsNext(o: Oracle, s: State, ids: seq<nat>, j: nat)
    requires j < |ids|
    ensures RecoverAll(o, s, ids[..j + 1]) == RecoverOne(o, RecoverAll(o, s, ids[..j]), ids[j])
  {
    hide Valid, RecoverOne;
    assert ids[..j + 1][..j] == ids[..j];
  }
}
