/**
 * What the controller does to the outside world, as a log, and the rules that log obeys. The world is a function
 * of the log, so a rule that holds of a log holds of every prefix of it: of every point where the controller
 * can be killed.
 */
module History {
  import opened Base
  import opened MetaCodec
  import opened Procs

  datatype Signo = SIGTERM | SIGKILL

  datatype Effect =
    | Created(meta: Meta)                          // `forge submit` wrote a new record
    | Restarted                                    // a controller starts
    | Saved(meta: Meta)                            // save_meta replaced the record
    | SaveLost(meta: Meta)                         // save_meta left the old record
    | SavedBehind(meta: Meta)                      // the same, behind the back of a job that is live
    | ForkLoop(id: nat)                            // launch_job reaches its fork loop
    | Forked(id: nat, pid: int32)
    | Aborted(pid: int32)                          // killed and waited for, because a sibling could not be forked
    | StopRound(id: nat, sig: Signo, at: nat)      // signal_job begins
    | Signalled(id: nat, pid: int32, sig: Signo)
    | Waited(pid: int32)                           // waitid reported this child
    | OutputWritten(id: nat, text: string)         // atomic_write_file replaced `output`
    | LeftoverKilled(id: nat, pid: int32, start: uint64, seen: uint64)

  /** The stop signals a launched job has been sent. */
  datatype Stops = NoStops | Termed(at: nat) | KilledToo

  datatype World = World(
    disk: map<nat, Meta>,
    looped: set<nat>,            // jobs that have reached the fork loop
    loops: seq<nat>,             // the same in order
    children: map<int32, nat>,   // forked by this controller and not yet waited for, with their jobs
    stops: map<nat, Stops>,
    round: Option<(nat, Signo)>,
    outputs: map<nat, string>,   // written by the last launch of the job
    lost: set<nat>,              // jobs a save of whose record has been lost
    behind: set<nat>,            // jobs whose record has been replaced while they were live, behind their back
    ok: bool,                    // every effect kept the rules
    aimed: bool)                 // every fork returned a new pid and every signal went to a child of its job

  const FIRST: World := World(map[], {}, [], map[], map[], None, map[], {}, {}, true, true)

  predicate Terminal(s: JobState) {
    s in {Completed, Failed, TimedOut, Cancelled}
  }

  function Rank(s: JobState): nat {
    match s
    case Submitted => 1
    case Queued => 2
    case Starting => 3
    case Running => 4
    case Persisting => 5
    case UnknownState(_) => 0
    case _ => 6
  }

  /** The operations whose result is a text that the controller writes to `output`. */
  predicate HasText(op: Op) {
    op in {OpSha256, OpChunkSha256, OpCount}
  }

  function TrimNewlines(s: string): string {
    if s != "" && s[|s| - 1] == '\n' then TrimNewlines(s[..|s| - 1]) else s
  }

  /** What is taken off is newlines, and all of those at the end. */
  lemma {:induction false} TrimsNewlines(s: string)
    ensures var t := TrimNewlines(s);
      && t <= s && (t == "" || t[|t| - 1] != '\n')
      && forall i :: |t| <= i < |s| ==> s[i] == '\n'
  {
    if s != "" && s[|s| - 1] == '\n' {
      TrimsNewlines(s[..|s| - 1]);
    }
  }

  // ---------- the rules ----------

  /** A saved record never goes back and never leaves a terminal state. */
  predicate SaveRule(w: World, m: Meta) {
    m.id in w.disk && !Terminal(w.disk[m.id].state) && Rank(w.disk[m.id].state) <= Rank(m.state)
  }

  /** A job that went through the fork loop is never queued again. */
  predicate LoopRule(w: World, m: Meta) {
    m.id in w.disk && (m.id in w.looped ==> Rank(m.state) >= 3)
  }

  /** A completed text operation has its output in place, and a digest that says the same. */
  predicate OutputRule(w: World, m: Meta) {
    m.state.Completed? && HasText(m.op) ==>
      m.id in w.outputs && (m.op in {OpSha256, OpCount} ==> m.digest == TrimNewlines(w.outputs[m.id]))
  }

  predicate Rule(w: World, e: Effect) {
    match e
    case Created(m) => m.id !in w.disk && m.state.Submitted?
    case Saved(m) =>
      && !m.state.UnknownState? && OutputRule(w, m)
      && (m.id !in w.lost ==> LoopRule(w, m)) && (m.id !in w.lost && m.id !in w.behind ==> SaveRule(w, m))
    case SavedBehind(m) => m.id in w.disk && m.id in w.looped && Terminal(m.state)
    case ForkLoop(id) => id !in w.lost ==> id !in w.looped && id in w.disk && w.disk[id].state.Starting?
    case Forked(id, _) => id in w.looped
    case StopRound(id, SIGTERM, _) => id in w.stops && w.stops[id].NoStops?
    case StopRound(id, SIGKILL, at) => id in w.stops && w.stops[id].Termed? && at > w.stops[id].at + 1000
    case Signalled(id, _, sig) => w.round == Some((id, sig))
    case OutputWritten(id, _) => id !in w.lost ==> id in w.disk && w.disk[id].state.Persisting?
    case LeftoverKilled(id, pid, start, seen) =>
      start != 0 && seen == start && id in w.disk && Recorded(pid, start) in ParsedProcs(w.disk[id].procs)
    case _ => true
  }

  /** What depends on the kernel handing out pids that are not in use. */
  predicate Aimed(w: World, e: Effect) {
    match e
    case Forked(_, pid) => pid !in w.children
    case Aborted(pid) => pid in w.children
    case Signalled(id, pid, _) => pid in w.children && w.children[pid] == id
    case _ => true
  }

  // ---------- the world after a log ----------

  function DiskAfter(disk: map<nat, Meta>, e: Effect): map<nat, Meta> {
    if e.Created? || e.Saved? || e.SavedBehind? then disk[e.meta.id := e.meta] else disk
  }

  function LoopsAfter(loops: seq<nat>, e: Effect): seq<nat> {
    if e.ForkLoop? then loops + [e.id] else loops
  }

  function LoopedAfter(looped: set<nat>, e: Effect): set<nat> {
    if e.ForkLoop? then looped + {e.id} else looped
  }

  function ChildrenAfter(children: map<int32, nat>, e: Effect): map<int32, nat> {
    match e
    case Forked(id, pid) => children[pid := id]
    case Aborted(pid) => children - {pid}
    case Waited(pid) => children - {pid}
    case Restarted => map[]
    case _ => children
  }

  function StopsAfter(stops: map<nat, Stops>, e: Effect): map<nat, Stops> {
    match e
    case ForkLoop(id) => stops[id := NoStops]
    case StopRound(id, sig, at) => stops[id := if sig.SIGTERM? then Termed(at) else KilledToo]
    case _ => stops
  }

  function RoundAfter(round: Option<(nat, Signo)>, e: Effect): Option<(nat, Signo)> {
    if e.StopRound? then Some((e.id, e.sig)) else if e.Restarted? then None else round
  }

  function OutputsAfter(outputs: map<nat, string>, e: Effect): map<nat, string> {
    match e
    case OutputWritten(id, text) => outputs[id := text]
    case ForkLoop(id) => outputs - {id}
    case _ => outputs
  }

  function LostAfter(lost: set<nat>, e: Effect): set<nat> {
    if e.SaveLost? then lost + {e.meta.id} else lost
  }

  function BehindAfter(behind: set<nat>, e: Effect): set<nat> {
    if e.SavedBehind? then behind + {e.meta.id} else behind
  }

  function Observe(w: World, e: Effect): World {
    World(DiskAfter(w.disk, e), LoopedAfter(w.looped, e), LoopsAfter(w.loops, e), ChildrenAfter(w.children, e),
          StopsAfter(w.stops, e), RoundAfter(w.round, e), OutputsAfter(w.outputs, e),
          LostAfter(w.lost, e), BehindAfter(w.behind, e), w.ok && Rule(w, e), w.aimed && Aimed(w, e))
  }

  function Replay(log: seq<Effect>): World {
    if log == [] then FIRST else Observe(Replay(log[..|log| - 1]), log[|log| - 1])
  }

  /** The world at point `k` of a log. */
  function At(log: seq<Effect>, k: nat): World
    requires k <= |log|
  {
    Replay(log[..k])
  }

  lemma AtStep(log: seq<Effect>, k: nat)
    requires k < |log|
    ensures At(log, k + 1) == Observe(At(log, k), log[k])
  {
    assert log[..k + 1][..k] == log[..k];
  }

  lemma AtStart(log: seq<Effect>)
    ensures At(log, 0) == FIRST
  {
  }

  lemma AtEnd(log: seq<Effect>)
    ensures At(log, |log|) == Replay(log)
  {
    assert log[..|log|] == log;
  }

  lemma StepForgetsNothing(w: World, e: Effect)
    ensures Observe(w, e).ok ==> w.ok
    ensures w.lost <= Observe(w, e).lost && w.behind <= Observe(w, e).behind
    ensures Observe(w, e).aimed ==> w.aimed
    ensures w.looped <= Observe(w, e).looped
  {
    hide Rule, Aimed;
  }

  /** The rules hold of a log only if they hold of every prefix; lost saves and bad aims are never forgotten. */
  lemma {:induction false} Earlier(log: seq<Effect>, k: nat, l: nat)
    requires k <= l <= |log|
    ensures At(log, l).ok ==> At(log, k).ok
    ensures At(log, k).lost <= At(log, l).lost && At(log, k).behind <= At(log, l).behind
    ensures At(log, l).aimed ==> At(log, k).aimed
    ensures At(log, k).looped <= At(log, l).looped
  {
    hide Replay, At, Observe;
    if k < l {
      Earlier(log, k, l - 1);
      AtStep(log, l - 1);
      StepForgetsNothing(At(log, l - 1), log[l - 1]);
    }
  }

  /** At any point of a log that obeys the rules, the next effect obeyed them. */
  lemma RuleAt(log: seq<Effect>, k: nat)
    requires k < |log| && Replay(log).ok
    ensures Rule(At(log, k), log[k])
    ensures Replay(log).aimed ==> Aimed(At(log, k), log[k])
    ensures At(log, k).lost <= At(log, k + 1).lost <= Replay(log).lost
    ensures At(log, k).behind <= At(log, k + 1).behind <= Replay(log).behind
  {
    hide Rule, Aimed;
    AtStep(log, k);
    AtEnd(log);
    Earlier(log, k + 1, |log|);
    Earlier(log, k, |log|);
  }

  /** The two sets say what the log shows: whose saves were lost, and whose record was replaced behind their back. */
  lemma {:induction false} SetsOfLog(log: seq<Effect>, id: nat)
    ensures id in Replay(log).lost <==> exists p :: 0 <= p < |log| && log[p].SaveLost? && log[p].meta.id == id
    ensures id in Replay(log).behind <==> exists p :: 0 <= p < |log| && log[p].SavedBehind? && log[p].meta.id == id
  {
    hide Rule, Aimed;
    if log != [] {
      var front := log[..|log| - 1];
      SetsOfLog(front, id);
      assert forall p :: 0 <= p < |front| ==> front[p] == log[p];
    }
  }

  // ---------- records ----------

  /** A job that went through the fork loop has a record that says so. */
  ghost predicate LoopsAreRecorded(w: World) {
    && (forall id :: id in w.looped && id !in w.lost ==> id in w.disk && Rank(w.disk[id].state) >= 3)
    && w.behind <= w.looped
  }

  lemma {:induction false} RecordsStay(log: seq<Effect>, k: nat, l: nat)
    requires k <= l <= |log|
    ensures At(log, k).disk.Keys <= At(log, l).disk.Keys
  {
    hide Replay, At, Rule, Aimed;
    if k < l {
      RecordsStay(log, k, l - 1);
      AtStep(log, l - 1);
    }
  }

  /** Records are filed under their own id, in one of the nine states. */
  ghost predicate FiledById(w: World) {
    forall id :: id in w.disk ==> w.disk[id].id == id && !w.disk[id].state.UnknownState?
  }

  lemma ObserveKeepsFiles(w: World, e: Effect)
    requires FiledById(w) && Rule(w, e)
    ensures FiledById(Observe(w, e))
  {
    hide Aimed, LoopRule, OutputRule, SaveRule;
  }

  lemma ObserveKeepsLoops(w: World, e: Effect)
    requires LoopsAreRecorded(w) && Rule(w, e)
    ensures LoopsAreRecorded(Observe(w, e))
  {
    var v := Observe(w, e);
    forall id | id in v.looped && id !in v.lost ensures id in v.disk && Rank(v.disk[id].state) >= 3 {
      hide *;
      LoopIsRecorded(w, e, id);
    }
    hide Rank, Aimed, LoopRule, OutputRule, SaveRule;
  }

  lemma LoopIsRecorded(w: World, e: Effect, id: nat)
    requires LoopsAreRecorded(w) && Rule(w, e) && id in Observe(w, e).looped && id !in Observe(w, e).lost
    ensures id in Observe(w, e).disk && Rank(Observe(w, e).disk[id].state) >= 3
  {
    hide Aimed, OutputRule, SaveRule;
    if e == ForkLoop(id) {
      assert w.disk[id].state.Starting?;
    } else {
      assert id !in w.lost && id in w.looped;
    }
  }

  lemma StepRaises(w: World, e: Effect, id: nat)
    requires id in w.disk && id !in w.lost && id !in Observe(w, e).behind && Rule(w, e)
    ensures var v := Observe(w, e);
      && id in v.disk && Rank(w.disk[id].state) <= Rank(v.disk[id].state)
      && (Terminal(w.disk[id].state) ==> v.disk[id] == w.disk[id])
  {
    hide Aimed, Rank, Terminal, LoopRule, OutputRule;
  }

  /**
   * Between two points of a lawful log a record only moves up and a terminal one stays, if none of its saves was
   * lost or made behind the back of the live job.
   */
  lemma {:induction false} RecordsRise(log: seq<Effect>, k: nat, l: nat, id: nat)
    requires k <= l <= |log| && Replay(log).ok && id in At(log, k).disk
    requires id !in Replay(log).lost && id !in Replay(log).behind
    ensures id in At(log, l).disk
    ensures Rank(At(log, k).disk[id].state) <= Rank(At(log, l).disk[id].state)
    ensures Terminal(At(log, k).disk[id].state) ==> At(log, l).disk[id] == At(log, k).disk[id]
  {
    hide Replay, At, Observe, Rule, Aimed, Rank, Terminal;
    if k < l {
      RecordsRise(log, k, l - 1, id);
      AtStep(log, l - 1);
      RuleAt(log, l - 1);
      StepRaises(At(log, l - 1), log[l - 1], id);
    }
  }

  /** Of two saves of one job the later never has a lower rank, and there is none after a terminal one. */
  lemma SavesRise(log: seq<Effect>, p: nat, q: nat)
    requires p < q < |log| && log[p].Saved? && log[q].Saved? && log[p].meta.id == log[q].meta.id
    requires Replay(log).ok && log[p].meta.id !in Replay(log).lost && log[p].meta.id !in Replay(log).behind
    ensures Rank(log[p].meta.state) <= Rank(log[q].meta.state)
    ensures !Terminal(log[p].meta.state)
  {
    hide Replay, At, Aimed;
    AtStep(log, p);
    RecordsRise(log, p + 1, q, log[p].meta.id);
    RuleAt(log, q);
  }

  /** The save at `q` replaces a record of `id` that was already terminal. */
  ghost predicate EndsTwice(log: seq<Effect>, q: nat, id: nat)
    requires q < |log|
  {
    log[q].Saved? && log[q].meta.id == id && id in At(log, q).disk && Terminal(At(log, q).disk[id].state)
  }

  /** A terminal record is replaced only after one was saved behind the back of the live job. */
  lemma EndsTwiceBehind(log: seq<Effect>, q: nat, id: nat) returns (p: nat)
    requires q < |log| && Replay(log).ok && id !in Replay(log).lost && EndsTwice(log, q, id)
    ensures p < q && log[p].SavedBehind? && log[p].meta.id == id
  {
    hide Replay, Aimed, LoopRule, OutputRule;
    RuleAt(log, q);
    SetsOfLog(log[..q], id);
    p :| 0 <= p < q && log[..q][p].SavedBehind? && log[..q][p].meta.id == id;
  }

  lemma StepEnds(w: World, e: Effect, id: nat)
    requires id in w.disk && Terminal(w.disk[id].state) && Rule(w, e) && !(e.Saved? && e.meta.id == id)
    ensures id in Observe(w, e).disk && Terminal(Observe(w, e).disk[id].state)
  {
    hide Aimed, Terminal, LoopRule, OutputRule, SaveRule;
  }

  lemma {:induction false} EndStays(log: seq<Effect>, k: nat, l: nat, id: nat)
    requires k <= l <= |log| && Replay(log).ok && id in At(log, k).disk && Terminal(At(log, k).disk[id].state)
    requires forall i :: k <= i < l ==> !(log[i].Saved? && log[i].meta.id == id)
    ensures id in At(log, l).disk && Terminal(At(log, l).disk[id].state)
  {
    hide Replay, At, Observe, Rule, Aimed, Terminal;
    if k < l {
      EndStays(log, k, l - 1, id);
      AtStep(log, l - 1);
      RuleAt(log, l - 1);
      StepEnds(At(log, l - 1), log[l - 1], id);
    }
  }

  /** If a record is terminal, the next save of it replaces a terminal one. */
  lemma {:induction false} SavedOverEnd(log: seq<Effect>, k: nat, q: nat, id: nat) returns (r: nat)
    requires k <= q < |log| && Replay(log).ok && id in At(log, k).disk && Terminal(At(log, k).disk[id].state)
    requires log[q].Saved? && log[q].meta.id == id
    ensures k <= r <= q && EndsTwice(log, r, id)
    decreases q
  {
    hide Replay, At, Terminal;
    if i :| k <= i < q && log[i].Saved? && log[i].meta.id == id {
      r := SavedOverEnd(log, k, i, id);
    } else {
      EndStays(log, k, q, id);
      r := q;
    }
  }

  /** So any save after the one behind the back of the live job does replace one. */
  lemma BehindEndsTwice(log: seq<Effect>, p: nat, q: nat, id: nat) returns (r: nat)
    requires p < q < |log| && Replay(log).ok && log[p].SavedBehind? && log[p].meta.id == id
    requires log[q].Saved? && log[q].meta.id == id
    ensures p < r <= q && EndsTwice(log, r, id)
  {
    hide Replay, At, Aimed, Terminal, LoopRule, OutputRule, SaveRule;
    AtStep(log, p);
    RuleAt(log, p);
    r := SavedOverEnd(log, p + 1, q, id);
  }

  /** Each job goes through the fork loop at most once, across every restart. */
  lemma LoopsOnce(log: seq<Effect>, p: nat, q: nat)
    requires p < |log| && q < |log| && log[p].ForkLoop? && log[q].ForkLoop? && log[p].id == log[q].id
    requires Replay(log).ok && log[p].id !in Replay(log).lost
    ensures p == q
  {
    hide Replay, At, Aimed;
    var a, b := if p < q then p else q, if p < q then q else p;
    if a < b {
      AtStep(log, a);
      Earlier(log, a + 1, b);
      RuleAt(log, b);
    }
  }

  ghost predicate NoLoopBetween(log: seq<Effect>, p: nat, q: nat, id: nat)
    requires q <= |log|
  {
    forall k :: p <= k < q ==> log[k] != ForkLoop(id)
  }

  /** When a record of a text operation is saved as completed, this launch's output is already in place. */
  lemma CompletedAfterOutput(log: seq<Effect>, q: nat) returns (p: nat)
    requires q < |log| && log[q].Saved? && log[q].meta.state.Completed? && HasText(log[q].meta.op)
    requires Replay(log).ok
    ensures p < q && log[p].OutputWritten? && log[p].id == log[q].meta.id && NoLoopBetween(log, p, q, log[p].id)
    ensures log[q].meta.op in {OpSha256, OpCount} ==> log[q].meta.digest == TrimNewlines(log[p].text)
  {
    hide Replay, At, Aimed, SaveRule, LoopRule, TrimNewlines;
    RuleAt(log, q);
    p := OutputWasWritten(log, q, log[q].meta.id);
  }

  lemma StepWrites(w: World, e: Effect, id: nat)
    requires id in Observe(w, e).outputs
    ensures e != ForkLoop(id)
    ensures if e.OutputWritten? && e.id == id then Observe(w, e).outputs[id] == e.text
            else id in w.outputs && w.outputs[id] == Observe(w, e).outputs[id]
  {
    hide Rule, Aimed;
  }

  lemma {:induction false} OutputWasWritten(log: seq<Effect>, k: nat, id: nat) returns (p: nat)
    requires k <= |log| && id in At(log, k).outputs
    ensures p < k && log[p] == OutputWritten(id, At(log, k).outputs[id]) && NoLoopBetween(log, p, k, id)
  {
    hide Replay, At, Observe;
    AtStart(log);
    if k == 0 {
      assert false;
    } else {
      AtStep(log, k - 1);
      StepWrites(At(log, k - 1), log[k - 1], id);
      if log[k - 1].OutputWritten? && log[k - 1].id == id {
        p := k - 1;
      } else {
        p := OutputWasWritten(log, k - 1, id);
      }
    }
  }

  /** `loops` lists the fork loops of the log in order; if it did not grow there was none in between. */
  lemma {:induction false} LoopsGrow(log: seq<Effect>, k: nat, l: nat)
    requires k <= l <= |log|
    ensures At(log, k).loops <= At(log, l).loops
    ensures At(log, k).loops == At(log, l).loops ==> forall p :: k <= p < l ==> !log[p].ForkLoop?
  {
    hide Replay, At, Rule, Aimed;
    if k < l {
      LoopsGrow(log, k, l - 1);
      AtStep(log, l - 1);
    }
  }

  /** A job that is not among the loops that were added had no fork loop in between. */
  lemma {:induction false} NoLoopOf(log: seq<Effect>, k: nat, l: nat, id: nat, added: seq<nat>)
    requires k <= l <= |log| && At(log, l).loops == At(log, k).loops + added && id !in added
    ensures NoLoopBetween(log, k, l, id)
  {
    hide Replay, At, Rule, Aimed;
    if k < l {
      LoopsGrow(log, k, l - 1);
      AtStep(log, l - 1);
      var a, b := At(log, k).loops, At(log, l - 1).loops;
      var before, last := b[|a|..], if log[l - 1].ForkLoop? then [log[l - 1].id] else [];
      assert At(log, l).loops == b + last && b == a + before;
      assert added == (a + added)[|a|..] == before + last;
      NoLoopOf(log, k, l - 1, id, before);
    }
  }

  /** The ids of the fork loops of a log, in order. */
  function LoopsIn(log: seq<Effect>): seq<nat> {
    if log == [] then []
    else
      var e := log[|log| - 1];
      LoopsIn(log[..|log| - 1]) + if e.ForkLoop? then [e.id] else []
  }

  lemma {:induction false} LoopsOfLog(log: seq<Effect>)
    ensures Replay(log).loops == LoopsIn(log)
  {
    hide Rule, Aimed;
    if log != [] {
      LoopsOfLog(log[..|log| - 1]);
    }
  }

  // ---------- signals ----------

  /**
   * Of two stop rounds of one launch the first is SIGTERM and the second SIGKILL, more than a second later; so there
   * is no third. With KillFollowsTerm the rounds are a prefix of [SIGTERM, SIGKILL].
   */
  lemma StopsInOrder(log: seq<Effect>, p: nat, q: nat)
    requires p < q < |log| && log[p].StopRound? && log[q].StopRound? && log[p].id == log[q].id
    requires NoLoopBetween(log, p, q, log[p].id) && Replay(log).ok
    ensures log[p].sig.SIGTERM? && log[q].sig.SIGKILL? && log[q].at > log[p].at + 1000
  {
    hide Replay, At, Aimed;
    AtStep(log, p);
    RuleAt(log, p);
    RuleAt(log, q);
    StopsStay(log, p + 1, q, log[p].id);
  }

  lemma StepStops(w: World, e: Effect, id: nat)
    requires Rule(w, e) && e != ForkLoop(id) && id in w.stops && !w.stops[id].NoStops?
    ensures var v := Observe(w, e);
      && id in v.stops && (v.stops[id] == w.stops[id] || (w.stops[id].Termed? && v.stops[id].KilledToo?))
  {
    hide Aimed, SaveRule, LoopRule, OutputRule;
  }

  /** Whatever has been sent stays sent until the job is launched again. */
  lemma {:induction false} StopsStay(log: seq<Effect>, k: nat, l: nat, id: nat)
    requires k <= l <= |log| && Replay(log).ok && NoLoopBetween(log, k, l, id)
    requires id in At(log, k).stops && !At(log, k).stops[id].NoStops?
    ensures id in At(log, l).stops
    ensures At(log, l).stops[id] == At(log, k).stops[id] || (At(log, k).stops[id].Termed? &&
      At(log, l).stops[id].KilledToo?)
  {
    hide Replay, At, Observe, Rule, Aimed;
    if k < l {
      StopsStay(log, k, l - 1, id);
      AtStep(log, l - 1);
      RuleAt(log, l - 1);
      StepStops(At(log, l - 1), log[l - 1], id);
    }
  }

  /** Every SIGKILL round was preceded, in the same launch and by more than a second, by a SIGTERM round. */
  lemma KillFollowsTerm(log: seq<Effect>, q: nat) returns (p: nat)
    requires q < |log| && log[q].StopRound? && log[q].sig.SIGKILL? && Replay(log).ok
    ensures p < q && log[p].StopRound? && log[p].sig.SIGTERM? && log[p].id == log[q].id
    ensures NoLoopBetween(log, p, q, log[p].id) && log[q].at > log[p].at + 1000
  {
    hide Replay, At, Aimed;
    RuleAt(log, q);
    p := TermWasSent(log, q, log[q].id);
  }

  lemma StepTerms(w: World, e: Effect, id: nat)
    requires id in Observe(w, e).stops && Observe(w, e).stops[id].Termed?
    ensures e != ForkLoop(id)
    ensures e == StopRound(id, SIGTERM, Observe(w, e).stops[id].at)
      || (id in w.stops && w.stops[id] == Observe(w, e).stops[id])
  {
    hide Rule, Aimed;
  }

  /** A job that has been sent SIGTERM was sent it by a round since its launch. */
  lemma {:induction false} TermWasSent(log: seq<Effect>, k: nat, id: nat) returns (p: nat)
    requires k <= |log| && id in At(log, k).stops && At(log, k).stops[id].Termed?
    ensures p < k && log[p] == StopRound(id, SIGTERM, At(log, k).stops[id].at) && NoLoopBetween(log, p, k, id)
  {
    hide Replay, At, Observe;
    AtStart(log);
    if k == 0 {
      assert false;
    } else {
      AtStep(log, k - 1);
      StepTerms(At(log, k - 1), log[k - 1], id);
      if log[k - 1] == StopRound(id, SIGTERM, At(log, k).stops[id].at) {
        p := k - 1;
      } else {
        p := TermWasSent(log, k - 1, id);
      }
    }
  }

  ghost predicate StillUnwaited(log: seq<Effect>, p: nat, q: nat, pid: int32)
    requires q <= |log|
  {
    forall k :: p < k < q ==> log[k] != Waited(pid) && log[k] != Aborted(pid) && !log[k].Restarted?
  }

  /** Every signal goes to a process this controller forked for that very job and has not yet waited for. */
  lemma SignalsGoToChildren(log: seq<Effect>, q: nat) returns (p: nat)
    requires q < |log| && log[q].Signalled? && Replay(log).ok && Replay(log).aimed
    ensures p < q && log[p] == Forked(log[q].id, log[q].pid) && StillUnwaited(log, p, q, log[q].pid)
  {
    hide Replay, At, Rule;
    RuleAt(log, q);
    p := ChildWasForked(log, q, log[q].pid);
  }

  lemma StepForks(w: World, e: Effect, pid: int32)
    requires pid in Observe(w, e).children
    ensures e != Waited(pid) && e != Aborted(pid) && !e.Restarted?
    ensures if e.Forked? && e.pid == pid then Observe(w, e).children[pid] == e.id
            else pid in w.children && w.children[pid] == Observe(w, e).children[pid]
  {
    hide Rule, Aimed;
  }

  lemma {:induction false} ChildWasForked(log: seq<Effect>, k: nat, pid: int32) returns (p: nat)
    requires k <= |log| && pid in At(log, k).children
    ensures p < k && log[p] == Forked(At(log, k).children[pid], pid) && StillUnwaited(log, p, k, pid)
  {
    hide Replay, At, Observe;
    AtStart(log);
    if k == 0 {
      assert false;
    } else {
      AtStep(log, k - 1);
      StepForks(At(log, k - 1), log[k - 1], pid);
      if log[k - 1].Forked? && log[k - 1].pid == pid {
        p := k - 1;
      } else {
        p := ChildWasForked(log, k - 1, pid);
      }
    }
  }
}
