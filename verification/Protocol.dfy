/**
 * The shared region of one job: the start gate, the result slots, the publish counter and the wake counter,
 * as a transition system of the workers and the controller in which any worker can be killed at any step.
 * Memory is modelled with views: a release increment of `chunks_done` carries what its worker has written
 * and what earlier increments carried, and an acquire load takes over the view of the value it returns.
 */
module Protocol {
  import opened Base
  import opened MetaCodec
  import opened Ranges
  import opened Reader
  import opened Worker

  const MAX_WORKERS := 16

  /** What never changes while a job runs: the operation, the input and the slices. */
  datatype Job = Job(op: Op, file: seq<byte>, ranges: seq<ByteRange>)

  ghost predicate ValidJob(j: Job) {
    && j.op in {OpSha256, OpChunkSha256, OpCount, OpCopy}
    && |j.ranges| <= MAX_WORKERS && |j.file| < U64
    && Partition(j.ranges, |j.file|)
    && (forall i :: 0 <= i < |j.ranges| ==> j.ranges[i].offset + j.ranges[i].length <= |j.file|)
    && (j.op in {OpSha256, OpCopy} ==> |j.ranges| == 1)
  }

  datatype Exit = Code(n: int) | Killed

  /** Where a worker is in worker_entry. */
  datatype Phase =
    | Setup                                   // limits and scheduler hints
    | AtGate                                  // about to load start_gate
    | SawClosed                               // loaded 0, about to call futex_wait
    | Asleep                                  // inside futex_wait
    | Working                                 // loaded 1
    | Finished(chunk: ChunkResult, code: int) // about to store the slot in publish_chunk
    | Stored(code: int)                       // about to increment chunks_done
    | Counted(code: int)                      // about to write the wake fd
    | Leaving(code: int)                      // about to _exit
    | Gone(exit: Exit)

  /** One value of chunks_done after 0: who stored it, and the view it carries. */
  datatype Message = Message(who: nat, view: set<nat>)

  datatype State = State(
    phases: seq<Phase>,
    views: seq<set<nat>>,     // the slot stores each worker has made
    slots: seq<ChunkResult>,
    gate: bool, woken: bool,  // start_gate == 1; futex_wake has returned
    done: seq<Message>,       // the modification order of chunks_done
    counter: nat, drained: nat,
    notified: set<nat>,       // workers whose write to the wake fd was delivered
    output: Option<seq<byte>>,
    sawOpen: set<nat>,        // workers that loaded start_gate == 1
    reaped: set<nat>,
    parentView: set<nat>, parentSeen: nat)

  function Init(n: nat): State {
    State(seq(n, i => Setup), seq(n, i => {}), seq(MAX_WORKERS, i => EMPTY_SLOT), false, false, [], 0, 0, {}, None,
          {}, {}, {}, 0)
  }

  /** One step of a worker; Killed can happen to it anywhere. */
  datatype WorkerStep =
    | SetupDone | SetupFails(error: string)
    | LoadGate | Wait | Rouse | WaitFails(error: string)
    | Work(outcome: Outcome)
    | StoreSlot | Increment | Notify(delivered: bool) | ExitNow
    | Die

  /** One step of the controller. */
  datatype ParentStep = OpenGate | WakeAll | Load(value: nat) | Drain | Reap(child: nat)

  datatype Action = By(i: nat, w: WorkerStep) | Parent(p: ParentStep)

  /** The outcomes the operation of worker `i` can have; a copy that fails may still have published its output. */
  ghost predicate Legal(j: Job, i: nat, o: Outcome)
    requires ValidJob(j) && i < |j.ranges|
  {
    && (o.Done? ==> o.chunk == GoodChunk(j.op, j.file, i, j.ranges[i]) && (j.op.OpCopy? ==> o.output.Some?))
    && (o.output.Some? ==> j.op.OpCopy? && o.output == Some(Slice(j.file, j.ranges[i])))
  }

  /** They are the outcomes of the code. */
  method Operate(k: Kernel, j: Job, io: Io, i: nat) returns (o: Outcome)
    requires ValidJob(j) && i < |j.ranges| && k.file == j.file && k.page > 0
    modifies k
    ensures Legal(j, i, o)
    ensures old(k.Willing()) && (io.IoDirect? ==> OnBlock(j.ranges[i].offset)) ==> o.Done?
  {
    hide GoodChunk, Slice, Kernel.Willing, OnBlock;
    o := RunOperation(k, j.op, io, i, j.ranges[i]);
  }

  ghost predicate WorkerEnabled(j: Job, i: nat, p: Phase, w: WorkerStep)
    requires ValidJob(j) && i < |j.ranges|
  {
    match w
    case SetupDone | SetupFails(_) => p.Setup?
    case LoadGate => p.AtGate?
    case Wait => p.SawClosed?
    case Rouse => p.Asleep?  // EINTR or a spurious return
    case WaitFails(_) => p.SawClosed? || p.Asleep?  // the 30 s timeout or another errno
    case Work(o) => p.Working? && Legal(j, i, o)
    case StoreSlot => p.Finished?
    case Increment => p.Stored?
    case Notify(_) => p.Counted?
    case ExitNow => p.Leaving?
    case Die => !p.Gone?
  }

  ghost predicate Enabled(j: Job, s: State, a: Action)
    requires ValidJob(j) && Shape(j, s)
  {
    match a
    case By(i, w) => i < |j.ranges| && WorkerEnabled(j, i, s.phases[i], w)
    case Parent(OpenGate) => !s.gate
    case Parent(WakeAll) => s.gate && !s.woken
    case Parent(Load(v)) => s.parentSeen <= v <= |s.done|
    case Parent(Drain) => true
    case Parent(Reap(i)) => i < |j.ranges| && s.phases[i].Gone? && i !in s.reaped
  }

  function Failed(j: Job, i: nat, error: string): Phase
    requires i < |j.ranges|
  {
    Finished(FailedChunk(i, j.ranges[i], error), 1)
  }

  /** The view that goes with the last value of chunks_done. */
  function LastView(s: State): set<nat> {
    if s.done == [] then {} else s.done[|s.done| - 1].view
  }

  /** The first value stored by `i`, as an index, or |done|. */
  function IndexOf(done: seq<Message>, i: nat): (k: nat)
    ensures k <= |done|
    ensures k < |done| ==> done[k].who == i
    ensures forall m :: 0 <= m < k ==> done[m].who != i
  {
    if done == [] then 0 else if done[0].who == i then 0 else 1 + IndexOf(done[1..], i)
  }

  /** What a step of worker `i` writes: its phase, and at most one of the shared things. */
  datatype Write =
    | Nothing
    | SeesOpen
    | Publishes(output: Option<seq<byte>>)
    | StoresSlot(chunk: ChunkResult)
    | Increments
    | Wakes

  datatype Effect = Effect(phase: Phase, write: Write)

  function WorkerEffect(j: Job, gate: bool, i: nat, p: Phase, w: WorkerStep): Effect
    requires i < |j.ranges|
  {
    match w
    case SetupDone => Effect(AtGate, Nothing)
    case SetupFails(error) => Effect(Failed(j, i, error), Nothing)
    case LoadGate => if gate then Effect(Working, SeesOpen) else Effect(SawClosed, Nothing)
    case Wait => Effect(if gate then AtGate else Asleep, Nothing)  // EAGAIN when the word is no longer 0
    case Rouse => Effect(AtGate, Nothing)
    case WaitFails(error) => Effect(Failed(j, i, error), Nothing)
    case Work(Done(chunk, output)) => Effect(Finished(chunk, 0), Publishes(output))
    case Work(Fails(error, output)) => Effect(Failed(j, i, error), Publishes(output))
    case StoreSlot => if p.Finished? then Effect(Stored(p.code), StoresSlot(p.chunk)) else Effect(p, Nothing)
    case Increment => if p.Stored? then Effect(Counted(p.code), Increments) else Effect(p, Nothing)
    case Notify(delivered) =>
      if p.Counted? then Effect(Leaving(p.code), if delivered then Wakes else Nothing) else Effect(p, Nothing)
    case ExitNow => if p.Leaving? then Effect(Gone(Code(p.code)), Nothing) else Effect(p, Nothing)
    case Die => Effect(Gone(Killed), Nothing)
  }

  function Apply(s: State, i: nat, e: Effect): State
    requires i < |s.phases| == |s.views|
  {
    var t := s.(phases := s.phases[i := e.phase]);
    match e.write
    case Nothing => t
    case SeesOpen => t.(sawOpen := s.sawOpen + {i})
    case Publishes(output) => t.(output := if output.Some? then output else s.output)
    case StoresSlot(chunk) =>
      t.(slots := if chunk.index < |s.slots| then s.slots[chunk.index := chunk] else s.slots,
         views := s.views[i := s.views[i] + {chunk.index}])
    case Increments => t.(done := s.done + [Message(i, LastView(s) + s.views[i])])
    case Wakes => t.(counter := s.counter + 1, notified := s.notified + {i})
  }

  function WorkerNext(j: Job, s: State, i: nat, w: WorkerStep): State
    requires i < |s.phases| == |s.views| == |j.ranges|
  {
    Apply(s, i, WorkerEffect(j, s.gate, i, s.phases[i], w))
  }

  function ParentNext(s: State, p: ParentStep): State
    requires |s.views| == |s.phases|
  {
    match p
    case OpenGate => s.(gate := true)
    case WakeAll => s.(woken := true, phases := seq(|s.phases|, k requires 0 <= k < |s.phases| => Awake(s.phases[k])))
    case Load(v) =>
      s.(parentSeen := v, parentView := s.parentView + if 0 < v <= |s.done| then s.done[v - 1].view else {})
    case Drain => s.(counter := 0, drained := s.drained + s.counter)
    case Reap(i) =>  // waitid: everything the dead process did happened before its parent goes on
      var k := IndexOf(s.done, i);
      s.(reaped := s.reaped + {i},
         parentSeen := if k < |s.done| && s.parentSeen <= k then k + 1 else s.parentSeen,
         parentView := s.parentView + (if k < |s.done| then s.done[k].view else {})
                       + (if i < |s.views| then s.views[i] else {}))
  }

  function Awake(p: Phase): Phase {
    if p.Asleep? then AtGate else p
  }

  // ---------- what every step keeps ----------

  ghost predicate Shape(j: Job, s: State) {
    && |s.phases| == |s.views| == |j.ranges|
    && |s.slots| == MAX_WORKERS
  }

  /** Whether worker `i` has stored its slot, and whether it has counted it. */
  ghost predicate HasStored(s: State, i: nat)
    requires i < |s.views|
  {
    i in s.views[i]
  }

  ghost predicate HasCounted(s: State, i: nat) {
    exists k :: 0 <= k < |s.done| && s.done[k].who == i
  }

  /** What one worker's story consists of. */
  datatype Local = Local(phase: Phase, stored: bool, slot: ChunkResult, counted: bool, notified: bool, saw: bool,
                         output: Option<seq<byte>>)

  ghost function LocalOf(s: State, i: nat): Local
    requires i < |s.phases| && i < |s.views| && i < |s.slots|
  {
    Local(s.phases[i], HasStored(s, i), s.slots[i], HasCounted(s, i), i in s.notified, i in s.sawOpen, s.output)
  }

  /** A slot to publish: the result of the slice by a worker that saw the gate open, or a failure. */
  ghost predicate SlotInv(j: Job, i: nat, chunk: ChunkResult, saw: bool, output: Option<seq<byte>>)
    requires ValidJob(j) && i < |j.ranges|
  {
    && chunk.index == i
    && (chunk.ok ==> saw && chunk == GoodChunk(j.op, j.file, i, j.ranges[i]))
    && (chunk.ok && j.op.OpCopy? ==> output == Some(j.file))
  }

  /** What the phase of worker `i` says about its slot, its increment and its exit. */
  ghost predicate LocalInv(j: Job, i: nat, l: Local)
    requires ValidJob(j) && i < |j.ranges|
  {
    && (l.stored ==> SlotInv(j, i, l.slot, l.saw, l.output))
    && (!l.stored ==> l.slot == EMPTY_SLOT)
    && (l.counted ==> l.stored)
    && (l.notified ==> l.counted && (l.phase.Leaving? || l.phase.Gone?))
    && match l.phase {
         case Setup | AtGate | SawClosed | Asleep => !l.stored
         case Working => !l.stored && l.saw
         case Finished(chunk, code) => !l.stored && SlotInv(j, i, chunk, l.saw, l.output) && chunk.ok == (code == 0)
         case Stored(code) => l.stored && !l.counted && l.slot.ok == (code == 0)
         case Counted(code) => l.counted && l.slot.ok == (code == 0)
         case Leaving(code) => l.counted && l.slot.ok == (code == 0)
         case Gone(Code(code)) => l.counted && l.slot.ok == (code == 0)
         case Gone(Killed) => true
       }
  }

  ghost predicate WorkerInv(j: Job, s: State, i: nat)
    requires ValidJob(j) && Shape(j, s) && i < |j.ranges|
  {
    s.views[i] <= {i} && LocalInv(j, i, LocalOf(s, i))
  }

  /** The gate: nobody is past it while it is shut, and nobody sleeps once the wake is over. */
  ghost predicate GateInv(s: State) {
    && (s.woken ==> s.gate)
    && (s.sawOpen != {} ==> s.gate)
    && (s.woken ==> forall i :: 0 <= i < |s.phases| ==> !s.phases[i].Asleep?)
  }

  /** The modification order of chunks_done: one value for each worker at most, each carrying all before it. */
  ghost predicate DoneInv(s: State) {
    && (forall k :: 0 <= k < |s.done| ==> s.done[k].who < |s.phases|)
    && (forall k, m :: 0 <= k < m < |s.done| ==> s.done[k].who != s.done[m].who)
    && (forall k, m :: 0 <= m <= k < |s.done| ==> s.done[m].who in s.done[k].view)
    && s.counter + s.drained <= |s.notified| && (forall i :: i in s.notified ==> i < |s.phases|)
  }

  /** What the controller has learnt from its loads and from waitid. */
  ghost predicate ParentInv(s: State)
    requires |s.views| == |s.phases|
  {
    && s.parentSeen <= |s.done|
    && (forall m :: 0 <= m < s.parentSeen ==> s.done[m].who in s.parentView)
    && (forall i :: i in s.reaped ==> i < |s.phases| && s.phases[i].Gone?)
    && (forall k :: 0 <= k < |s.done| && s.done[k].who in s.reaped ==> k < s.parentSeen)
  }

  ghost predicate Inv(j: Job, s: State)
    requires ValidJob(j)
  {
    && Shape(j, s) && GateInv(s) && DoneInv(s) && ParentInv(s)
    && (forall i :: 0 <= i < |j.ranges| ==> WorkerInv(j, s, i))
  }

  lemma InitInv(j: Job)
    requires ValidJob(j)
    ensures Inv(j, Init(|j.ranges|))
  {
  }

  function Next(j: Job, s: State, a: Action): State
    requires Shape(j, s) && (a.By? ==> a.i < |j.ranges|)
  {
    match a
    case By(i, w) => WorkerNext(j, s, i, w)
    case Parent(p) => ParentNext(s, p)
  }

  /** Every step of every process, and every kill, keeps the invariant. */
  lemma NextKeepsInv(j: Job, s: State, a: Action)
    requires ValidJob(j) && Inv(j, s) && Enabled(j, s, a)
    ensures Inv(j, Next(j, s, a))
  {
    RangesFit(j);
    hide LocalInv, HasStored, GateInv, DoneInv, ParentInv, ValidJob, LocalApply, WorkerEnabled, HasCounted, GoodChunk,
         WorkerEffect, Apply;
    match a
    case By(i, w) =>
      assert WorkerInv(j, s, i);
      assert i < |s.slots|;
      LocalKeeps(j, s.gate, i, LocalOf(s, i), w);
      var e := WorkerEffect(j, s.gate, i, s.phases[i], w);
      EffectIsSound(j, s, i, w);
      OwnProjection(j, s, i, e);
      WorkerKeepsGate(j, s, i, e);
      WorkerKeepsDone(j, s, i, e);
      WorkerKeepsParent(j, s, i, e);
      var t := Apply(s, i, e);
      forall k | 0 <= k < |j.ranges| && k != i ensures WorkerInv(j, t, k) {
        OthersAreFramed(j, s, i, e, k);
        FramedKeeps(j, s, t, k);
      }
    case Parent(p) =>
      forall k | 0 <= k < |j.ranges| ensures WorkerInv(j, ParentNext(s, p), k) {
        ParentKeepsWorkers(j, s, p, k);
      }
      ParentKeepsShared(j, s, p);
  }

  ghost predicate Ready(j: Job, s: State, i: nat, w: WorkerStep)
    requires ValidJob(j)
  {
    Shape(j, s) && i < |j.ranges| && WorkerInv(j, s, i) && WorkerEnabled(j, i, s.phases[i], w)
  }

  /** What the invariant needs to know about an effect, whichever step it comes from. */
  ghost predicate Sound(j: Job, s: State, i: nat, e: Effect)
    requires ValidJob(j) && Shape(j, s) && i < |j.ranges|
  {
    && (e.phase.Asleep? ==> !s.gate)
    && (s.phases[i].Gone? ==> false)
    && match e.write {
         case Nothing => true
         case SeesOpen => s.gate && e.phase == Working
         case Publishes(output) => output.Some? ==> j.op.OpCopy? && output == Some(j.file)
         case StoresSlot(chunk) => chunk.index == i && !HasStored(s, i)
         case Increments => HasStored(s, i) && !HasCounted(s, i)
         case Wakes => i !in s.notified && HasCounted(s, i)
       }
  }

  lemma EffectIsSound(j: Job, s: State, i: nat, w: WorkerStep)
    requires ValidJob(j) && Ready(j, s, i, w)
    ensures Sound(j, s, i, WorkerEffect(j, s.gate, i, s.phases[i], w))
  {
    CopyIsAlone(j);
    hide GoodChunk, ValidJob, Partition, Slice, HasCounted;
  }

  /** The effect of a step of worker `i` on its own story. */
  function LocalApply(i: nat, l: Local, e: Effect): Local {
    var m := l.(phase := e.phase);
    match e.write
    case Nothing => m
    case SeesOpen => m.(saw := true)
    case Publishes(output) => m.(output := if output.Some? then output else l.output)
    case StoresSlot(chunk) => m.(slot := chunk, stored := true)
    case Increments => m.(counted := true)
    case Wakes => m.(notified := true)
  }

  lemma LocalKeeps(j: Job, gate: bool, i: nat, l: Local, w: WorkerStep)
    requires ValidJob(j) && i < |j.ranges| && LocalInv(j, i, l) && WorkerEnabled(j, i, l.phase, w)
    ensures LocalInv(j, i, LocalApply(i, l, WorkerEffect(j, gate, i, l.phase, w)))
  {
    hide GoodChunk, ValidJob, Partition, Slice;
    match w
    case SetupDone | SetupFails(_) | Wait | Rouse | WaitFails(_) | LoadGate =>
    case Work(o) => WorkKeeps(j, gate, i, l, o);
    case StoreSlot | Increment | Notify(_) | ExitNow | Die => PublishKeeps(j, gate, i, l, w);
  }

  lemma WorkKeeps(j: Job, gate: bool, i: nat, l: Local, o: Outcome)
    requires ValidJob(j) && i < |j.ranges| && LocalInv(j, i, l) && l.phase == Working && Legal(j, i, o)
    ensures LocalInv(j, i, LocalApply(i, l, WorkerEffect(j, gate, i, l.phase, Work(o))))
  {
    CopyIsAlone(j);
    hide GoodChunk, ValidJob, Partition, Slice;
  }

  lemma PublishKeeps(j: Job, gate: bool, i: nat, l: Local, w: WorkerStep)
    requires ValidJob(j) && i < |j.ranges| && LocalInv(j, i, l) && WorkerEnabled(j, i, l.phase, w)
    requires w.StoreSlot? || w.Increment? || w.Notify? || w.ExitNow? || w.Die?
    ensures LocalInv(j, i, LocalApply(i, l, WorkerEffect(j, gate, i, l.phase, w)))
  {
    hide GoodChunk, ValidJob, Partition, Slice;
  }

  lemma OwnProjection(j: Job, s: State, i: nat, e: Effect)
    requires ValidJob(j) && Shape(j, s) && i < |j.ranges| && Sound(j, s, i, e) && s.views[i] <= {i}
    ensures Shape(j, Apply(s, i, e)) && Apply(s, i, e).views[i] <= {i}
    ensures LocalOf(Apply(s, i, e), i) == LocalApply(i, LocalOf(s, i), e)
  {
    hide HasCounted, LastView, ValidJob;
    CopyIsAlone(j);
    OwnCount(s, i, e);
    match e.write
    case StoresSlot(_) =>
    case Increments =>
    case _ =>
  }

  lemma OwnCount(s: State, i: nat, e: Effect)
    requires i < |s.phases| == |s.views|
    ensures HasCounted(Apply(s, i, e), i) <==> e.write.Increments? || HasCounted(s, i)
  {
    var t := Apply(s, i, e);
    SameCounts(s, t, i);
    if e.write.Increments? {
      assert t.done[|s.done|].who == i;
    }
  }

  lemma RangesFit(j: Job)
    requires ValidJob(j)
    ensures 0 < |j.ranges| <= MAX_WORKERS
  {
  }

  lemma CopyIsAlone(j: Job)
    requires ValidJob(j)
    ensures |j.ranges| <= MAX_WORKERS
    ensures j.op.OpCopy? ==> |j.ranges| == 1 && Slice(j.file, j.ranges[0]) == j.file
  {
  }

  lemma SameCounts(s: State, t: State, i: nat)
    requires s.done <= t.done
    ensures HasCounted(s, i) ==> HasCounted(t, i)
    ensures s.done == t.done ==> HasCounted(s, i) == HasCounted(t, i)
  {
    if HasCounted(s, i) {
      var m :| 0 <= m < |s.done| && s.done[m].who == i;
      assert t.done[m].who == i;
    }
  }

  /** What worker `k` relies on: its own entries, and histories that only grow. */
  ghost predicate Framed(j: Job, s: State, t: State, k: nat)
    requires ValidJob(j) && Shape(j, s) && k < |j.ranges|
  {
    && Shape(j, t)
    && t.views[k] == s.views[k] && t.slots[k] == s.slots[k] && (k in t.notified <==> k in s.notified)
    && (t.phases[k] == s.phases[k] || (s.phases[k].Asleep? && t.phases[k].AtGate?))
    && (HasCounted(t, k) <==> HasCounted(s, k))
    && s.sawOpen <= t.sawOpen && t.output == s.output
  }

  lemma FramedKeeps(j: Job, s: State, t: State, k: nat)
    requires ValidJob(j) && Shape(j, s) && k < |j.ranges| && WorkerInv(j, s, k) && Framed(j, s, t, k)
    ensures WorkerInv(j, t, k)
  {
    hide GoodChunk, Partition, HasCounted, ValidJob;
  }

  lemma OthersAreFramed(j: Job, s: State, i: nat, e: Effect, k: nat)
    requires ValidJob(j) && Shape(j, s) && i < |j.ranges| && Sound(j, s, i, e)
    requires k < |j.ranges| && k != i
    ensures Framed(j, s, Apply(s, i, e), k)
  {
    CopyIsAlone(j);
    CountsOfOthers(s, i, e, k);
    hide ValidJob, HasStored, HasCounted, LastView;
  }

  lemma CountsOfOthers(s: State, i: nat, e: Effect, k: nat)
    requires i < |s.phases| == |s.views| && k != i
    ensures HasCounted(Apply(s, i, e), k) <==> HasCounted(s, k)
  {
    var t := Apply(s, i, e);
    SameCounts(s, t, k);
    if HasCounted(t, k) {
      var m :| 0 <= m < |t.done| && t.done[m].who == k;
      assert m < |s.done| && s.done[m].who == k;
    }
  }

  lemma WorkerKeepsGate(j: Job, s: State, i: nat, e: Effect)
    requires ValidJob(j) && Shape(j, s) && i < |j.ranges| && Sound(j, s, i, e) && GateInv(s)
    ensures Shape(j, Apply(s, i, e)) && GateInv(Apply(s, i, e))
  {
    hide ValidJob, HasCounted, HasStored, LastView;
  }

  lemma WorkerKeepsDone(j: Job, s: State, i: nat, e: Effect)
    requires ValidJob(j) && Shape(j, s) && i < |j.ranges| && Sound(j, s, i, e) && DoneInv(s)
    ensures DoneInv(Apply(s, i, e))
  {
    if e.write.Increments? {
      IncrementKeepsDone(s, i, e);
    } else {
      hide ValidJob, HasCounted, HasStored, LastView, DoneInv;
      OtherKeepsDone(s, Apply(s, i, e), i, e);
    }
  }

  lemma OtherKeepsDone(s: State, t: State, i: nat, e: Effect)
    requires i < |s.phases| == |s.views| && t == Apply(s, i, e) && !e.write.Increments? && DoneInv(s)
    requires e.write.Wakes? ==> i !in s.notified
    ensures DoneInv(t)
  {
    WakesCounted(s);
    hide DoneInv, LastView, Apply;
    if e.write.Wakes? {
      OneMoreWake(s, t, i, e);
    } else {
      NoMoreWakes(s, t, i, e);
    }
    SameDone(s, t);
  }

  lemma OneMoreWake(s: State, t: State, i: nat, e: Effect)
    requires i < |s.phases| == |s.views| && t == Apply(s, i, e) && e.write.Wakes? && i !in s.notified
    ensures t.done == s.done && |t.phases| == |s.phases| && t.drained == s.drained
    ensures t.counter == s.counter + 1 && t.notified == s.notified + {i} && |t.notified| == |s.notified| + 1
  {
    hide LastView;
  }

  lemma NoMoreWakes(s: State, t: State, i: nat, e: Effect)
    requires i < |s.phases| == |s.views| && t == Apply(s, i, e) && !e.write.Wakes? && !e.write.Increments?
    ensures t.done == s.done && |t.phases| == |s.phases| && t.drained == s.drained
    ensures t.counter == s.counter && t.notified == s.notified
  {
    hide LastView;
  }

  lemma WakesCounted(s: State)
    requires DoneInv(s)
    ensures s.counter + s.drained <= |s.notified| && forall i :: i in s.notified ==> i < |s.phases|
  {
  }

  lemma SameDone(s: State, t: State)
    requires DoneInv(s) && t.done == s.done && |t.phases| == |s.phases|
    requires t.counter + t.drained <= |t.notified| && forall i :: i in t.notified ==> i < |t.phases|
    ensures DoneInv(t)
  {
  }

  lemma IncrementKeepsDone(s: State, i: nat, e: Effect)
    requires i < |s.phases| == |s.views| && e.write.Increments? && DoneInv(s)
    requires HasStored(s, i) && !HasCounted(s, i)
    ensures DoneInv(Apply(s, i, e))
  {
  }

  lemma WorkerKeepsParent(j: Job, s: State, i: nat, e: Effect)
    requires ValidJob(j) && Shape(j, s) && i < |j.ranges| && Sound(j, s, i, e) && ParentInv(s)
    ensures ParentInv(Apply(s, i, e))
  {
    hide ValidJob, HasCounted, HasStored, LastView;
  }

  lemma ParentKeepsWorkers(j: Job, s: State, p: ParentStep, k: nat)
    requires ValidJob(j) && Shape(j, s) && k < |j.ranges| && WorkerInv(j, s, k)
    ensures Shape(j, ParentNext(s, p)) && WorkerInv(j, ParentNext(s, p), k)
  {
    SameCounts(s, ParentNext(s, p), k);
    hide WorkerInv, ValidJob, HasCounted;
    assert Framed(j, s, ParentNext(s, p), k);
    FramedKeeps(j, s, ParentNext(s, p), k);
  }

  lemma ParentKeepsShared(j: Job, s: State, p: ParentStep)
    requires ValidJob(j) && Shape(j, s) && Enabled(j, s, Parent(p)) && GateInv(s) && DoneInv(s) && ParentInv(s)
    ensures Shape(j, ParentNext(s, p)) && GateInv(ParentNext(s, p))
    ensures DoneInv(ParentNext(s, p)) && ParentInv(ParentNext(s, p))
  {
    hide ValidJob;
  }

  // ---------- whole runs ----------

  /** A run: the states it goes through from the zeroed region, and the step taken from each. */
  ghost predicate Trace(j: Job, ss: seq<State>, acts: seq<Action>)
    requires ValidJob(j)
  {
    && |ss| == |acts| + 1 && ss[0] == Init(|j.ranges|)
    && forall k :: 0 <= k < |acts| ==>
         Shape(j, ss[k]) && Enabled(j, ss[k], acts[k]) && ss[k + 1] == Next(j, ss[k], acts[k])
  }

  lemma {:induction false} TraceInv(j: Job, ss: seq<State>, acts: seq<Action>, k: nat)
    requires ValidJob(j) && Trace(j, ss, acts) && k < |ss|
    ensures Inv(j, ss[k])
  {
    if k == 0 {
      InitInv(j);
    } else {
      TraceInv(j, ss, acts, k - 1);
      hide Inv, Enabled, Next, ValidJob;
      NextKeepsInv(j, ss[k - 1], acts[k - 1]);
    }
  }

  // ---------- the counter ----------

  ghost function Whos(s: State, n: nat): set<nat>
    requires n <= |s.done|
  {
    set k | 0 <= k < n :: s.done[k].who
  }

  lemma WhosStep(s: State, n: nat)
    requires DoneInv(s) && 0 < n <= |s.done|
    ensures Whos(s, n) == Whos(s, n - 1) + {s.done[n - 1].who} && s.done[n - 1].who !in Whos(s, n - 1)
  {
  }

  lemma {:induction false} WhosCount(s: State, n: nat)
    requires DoneInv(s) && n <= |s.done|
    ensures |Whos(s, n)| == n
  {
    if n == 0 {
      assert Whos(s, 0) == {};
    } else {
      WhosCount(s, n - 1);
      WhosStep(s, n);
    }
  }

  ghost function Below(n: nat): set<nat> {
    if n == 0 then {} else Below(n - 1) + {n - 1}
  }

  lemma {:induction false} BelowCount(n: nat)
    ensures |Below(n)| == n && forall i: nat :: i in Below(n) <==> i < n
  {
    if n > 0 {
      BelowCount(n - 1);
    }
  }

  lemma SubsetCount(a: set<nat>, b: set<nat>)
    requires a <= b
    ensures |a| <= |b| && (|a| == |b| ==> a == b)
  {
    assert b == a + (b - a);
  }

  /** chunks_done never passes nchunks, and once it gets there every worker has counted. */
  lemma CounterIsExact(j: Job, s: State)
    requires ValidJob(j) && Inv(j, s)
    ensures |s.done| <= |j.ranges|
    ensures |s.done| == |j.ranges| ==> forall i :: 0 <= i < |j.ranges| ==> HasCounted(s, i)
    ensures (forall i :: 0 <= i < |j.ranges| ==> HasCounted(s, i)) ==> |s.done| == |j.ranges|
  {
    hide ValidJob, WorkerInv;
    var n := |s.done|;
    var whos, all := Whos(s, n), Below(|j.ranges|);
    WhosCount(s, n);
    BelowCount(|j.ranges|);
    assert whos <= all;
    SubsetCount(whos, all);
    if n == |j.ranges| {
      forall i | 0 <= i < |j.ranges| ensures HasCounted(s, i) {
        assert i in whos;
      }
    }
    if forall i :: 0 <= i < |j.ranges| ==> HasCounted(s, i) {
      forall i | i in all ensures i in whos {
        assert HasCounted(s, i);
      }
      assert whos == all;
    }
  }

  /**
   * Publication: an acquire load of chunks_done that returns nchunks makes the stores of every slot visible
   * to the controller, whatever the order of the increments was.
   */
  lemma LoadSeesAllSlots(j: Job, s: State, i: nat)
    requires ValidJob(j) && Inv(j, s) && i < |j.ranges|
    requires Enabled(j, s, Parent(Load(|j.ranges|)))
    ensures i in Next(j, s, Parent(Load(|j.ranges|))).parentView
    ensures HasStored(s, i) && s.slots[i].index == i
  {
    CounterIsExact(j, s);
    assert WorkerInv(j, s, i) && HasCounted(s, i);
    var m :| 0 <= m < |s.done| && s.done[m].who == i;
    assert s.done[m].who in s.done[|s.done| - 1].view;
  }

  /** Slot `k` has one writer, worker `k`, which writes it once. */
  lemma SlotHasOneWriter(j: Job, s: State, a: Action, k: nat)
    requires ValidJob(j) && Inv(j, s) && Enabled(j, s, a) && k < MAX_WORKERS
    ensures Next(j, s, a).slots[k] != s.slots[k] ==>
      a == By(k, StoreSlot) && k < |j.ranges| && !HasStored(s, k) && HasStored(Next(j, s, a), k)
    ensures k < |j.ranges| && HasStored(s, k) ==> HasStored(Next(j, s, a), k)
  {
    RangesFit(j);
    InvShape(j, s);
    hide ValidJob, WorkerEffect, Sound, Apply;
    match a
    case By(i, w) =>
      assert WorkerInv(j, s, i);
      hide Inv;
      var e := WorkerEffect(j, s.gate, i, s.phases[i], w);
      EffectIsSound(j, s, i, w);
      OnlyStoreWrites(j, s, i, w);
      EffectWritesOwnSlot(j, s, i, e, k);
    case Parent(_) =>
  }

  /** Only StoreSlot has the effect of storing a slot. */
  lemma OnlyStoreWrites(j: Job, s: State, i: nat, w: WorkerStep)
    requires i < |s.phases| == |s.views| == |j.ranges|
    ensures WorkerEffect(j, s.gate, i, s.phases[i], w).write.StoresSlot? ==> w == StoreSlot
  {
  }

  lemma EffectWritesOwnSlot(j: Job, s: State, i: nat, e: Effect, k: nat)
    requires ValidJob(j) && Shape(j, s) && i < |j.ranges| && Sound(j, s, i, e) && k < MAX_WORKERS
    ensures var t := Apply(s, i, e);
      && |t.slots| == |s.slots| && |t.views| == |s.views|
      && (t.slots[k] != s.slots[k] ==> e.write.StoresSlot? && k == i && !HasStored(s, k) && HasStored(t, k))
      && (k < |j.ranges| && HasStored(s, k) ==> HasStored(t, k))
  {
    hide ValidJob, HasCounted, LastView;
  }

  /** An ok slot comes from a worker that saw the gate open; only failures may come earlier. */
  lemma OkSlotSawTheGate(j: Job, s: State, i: nat)
    requires ValidJob(j) && Inv(j, s) && i < |j.ranges| && s.slots[i].ok
    ensures s.gate && i in s.sawOpen
  {
    assert WorkerInv(j, s, i);
  }

  /** The wakes the controller has drained, with those still pending, never exceed chunks_done. */
  lemma WakesFollowIncrements(j: Job, s: State)
    requires ValidJob(j) && Inv(j, s)
    ensures s.drained + s.counter <= |s.done|
  {
    var n := |s.done|;
    forall i | i in s.notified ensures i in Whos(s, n) {
      assert WorkerInv(j, s, i);
    }
    WhosCount(s, n);
    SubsetCount(s.notified, Whos(s, n));
  }

  // ---------- the start gate ----------

  /** No lost wake-up: once the store and the wake are both done, no worker is asleep, now or later in the run. */
  lemma NoLostWakeUp(j: Job, ss: seq<State>, acts: seq<Action>, k: nat, m: nat, i: nat)
    requires ValidJob(j) && Trace(j, ss, acts) && k <= m < |ss| && i < |j.ranges|
    requires ss[k].woken
    ensures i < |ss[m].phases| && !ss[m].phases[i].Asleep?
  {
    TraceInv(j, ss, acts, m);
    StaysWoken(j, ss, acts, k, m);
  }

  lemma {:induction false} StaysWoken(j: Job, ss: seq<State>, acts: seq<Action>, k: nat, m: nat)
    requires ValidJob(j) && Trace(j, ss, acts) && k <= m < |ss| && ss[k].woken
    ensures ss[m].woken
  {
    if k < m {
      StaysWoken(j, ss, acts, k, m - 1);
      hide ValidJob, Enabled, WorkerEffect;
      assert ss[m] == Next(j, ss[m - 1], acts[m - 1]);
    }
  }

  /** A wake call that only wakes one sleeper, as os_sync_wake_by_address_any does. */
  function WakeOne(s: State, i: nat): State
    requires i < |s.phases|
  {
    s.(woken := true, phases := s.phases[i := Awake(s.phases[i])])
  }

  /** A state that some interleaving reaches. */
  ghost predicate Reachable(j: Job, s: State)
    requires ValidJob(j)
  {
    exists ss: seq<State>, acts: seq<Action> :: Trace(j, ss, acts) && |ss| > 0 && ss[|ss| - 1] == s
  }

  lemma ReachableInv(j: Job, s: State)
    requires ValidJob(j) && Reachable(j, s)
    ensures Inv(j, s)
  {
    hide ValidJob, Trace, Inv;
    var ss, acts :| Trace(j, ss, acts) && |ss| > 0 && ss[|ss| - 1] == s;
    TraceInv(j, ss, acts, |ss| - 1);
  }

  /** One more step of a run. */
  lemma TraceExtends(j: Job, ss: seq<State>, acts: seq<Action>, a: Action)
    requires ValidJob(j) && Trace(j, ss, acts)
    requires Shape(j, ss[|acts|]) && Enabled(j, ss[|acts|], a)
    ensures Trace(j, ss + [Next(j, ss[|acts|], a)], acts + [a])
  {
    hide ValidJob, Enabled, Next, Shape;
  }

  /** A worker in setup can go to sleep while the gate is shut. */
  lemma FallsAsleep(j: Job, ss0: seq<State>, acts0: seq<Action>, i: nat) returns (ss: seq<State>, acts: seq<Action>)
    requires ValidJob(j) && Trace(j, ss0, acts0) && i < |j.ranges|
    requires var s := ss0[|acts0|]; Shape(j, s) && !s.gate && s.phases[i].Setup?
    ensures Trace(j, ss, acts)
    ensures var s := ss0[|acts0|]; ss[|acts|] == s.(phases := s.phases[i := Asleep])
  {
    hide ValidJob, Trace;
    LastOfTrace(j, ss0, acts0);
    var s := ss0[|acts0|];
    var s1, s2, s3 := s.(phases := s.phases[i := AtGate]), s.(phases := s.phases[i := SawClosed]),
                      s.(phases := s.phases[i := Asleep]);
    assert Next(j, s, By(i, SetupDone)) == s1;
    assert Next(j, s1, By(i, LoadGate)) == s2;
    assert Next(j, s2, By(i, Wait)) == s3;
    hide Next;
    TraceExtends(j, ss0, acts0, By(i, SetupDone));
    TraceExtends(j, ss0 + [s1], acts0 + [By(i, SetupDone)], By(i, LoadGate));
    TraceExtends(j, ss0 + [s1] + [s2], acts0 + [By(i, SetupDone)] + [By(i, LoadGate)], By(i, Wait));
    ss, acts := ss0 + [s1] + [s2] + [s3], acts0 + [By(i, SetupDone)] + [By(i, LoadGate)] + [By(i, Wait)];
  }

  lemma LastOfTrace(j: Job, ss: seq<State>, acts: seq<Action>)
    requires ValidJob(j) && Trace(j, ss, acts)
    ensures |ss| == |acts| + 1
  {
  }

  /** With such a call wake-ups are lost: two workers can be asleep, and waking either leaves the other asleep. */
  lemma WakingOneIsNotEnough(j: Job) returns (ss: seq<State>, acts: seq<Action>)
    requires ValidJob(j) && |j.ranges| == 2
    ensures Trace(j, ss, acts)
    ensures var s := ss[|acts|]; |s.phases| == 2 && s.gate && s.phases[0].Asleep? && s.phases[1].Asleep?
    ensures var s := ss[|acts|];
            WakeOne(s, 0).woken && WakeOne(s, 0).phases[1].Asleep? && WakeOne(s, 1).phases[0].Asleep?
  {
    hide ValidJob;
    assert Trace(j, [Init(2)], []);
    hide Trace;
    ss, acts := FallsAsleep(j, [Init(2)], [], 0);
    LastOfTrace(j, ss, acts);
    ss, acts := FallsAsleep(j, ss, acts, 1);
    LastOfTrace(j, ss, acts);
    TraceExtends(j, ss, acts, Parent(OpenGate));
    ss, acts := ss + [Next(j, ss[|acts|], Parent(OpenGate))], acts + [Parent(OpenGate)];
  }

  // ---------- what is written before the gate opens ----------

  /** A failure slot can be stored while the gate is still shut. */
  lemma FailureBeforeTheGate(j: Job) returns (ss: seq<State>, acts: seq<Action>)
    requires ValidJob(j)
    ensures Trace(j, ss, acts)
    ensures var s := ss[|acts|];
      |s.views| > 0 && |s.slots| > 0 && !s.gate && HasStored(s, 0) &&
        s.slots[0] == FailedChunk(0, j.ranges[0], "limits")
  {
    RangesFit(j);
    hide ValidJob;
    acts := [By(0, SetupFails("limits")), By(0, StoreSlot)];
    var s0 := Init(|j.ranges|);
    var s1 := Next(j, s0, acts[0]);
    var s2 := Next(j, s1, acts[1]);
    ss := [s0, s1, s2];
  }

  /** Whether worker `i` has given up in setup or in the wait, within the first `k` steps. */
  ghost predicate GaveUp(acts: seq<Action>, k: nat, i: nat)
    requires k <= |acts|
  {
    exists m :: 0 <= m < k && acts[m].By? && acts[m].i == i && (acts[m].w.SetupFails? || acts[m].w.WaitFails?)
  }

  /** The phases after the operation, or instead of it. */
  predicate Publishing(p: Phase) {
    p.Finished? || p.Stored? || p.Counted? || p.Leaving? || (p.Gone? && p.exit.Code?)
  }

  /** Where a worker can be, depending on whether it gave up. */
  ghost predicate GateStory(s: State, i: nat, gaveUp: bool)
    requires i < |s.phases| && i < |s.views|
  {
    if gaveUp then i !in s.sawOpen && (Publishing(s.phases[i]) || s.phases[i].Gone?)
    else
      && (Publishing(s.phases[i]) || HasStored(s, i) || s.phases[i].Working? ==> i in s.sawOpen)
      && (i in s.sawOpen ==> Publishing(s.phases[i]) || s.phases[i].Working? || s.phases[i].Gone?)
  }

  lemma {:induction false} GateStoryHolds(j: Job, ss: seq<State>, acts: seq<Action>, k: nat, i: nat)
    requires ValidJob(j) && Trace(j, ss, acts) && k < |ss| && i < |j.ranges|
    ensures Shape(j, ss[k]) && GateStory(ss[k], i, GaveUp(acts, k, i))
  {
    if k == 0 {
    } else {
      hide ValidJob, GaveUp, Inv, Trace, GateStory, Next, Enabled;
      GateStoryHolds(j, ss, acts, k - 1, i);
      GaveUpStep(acts, k, i);
      TraceInv(j, ss, acts, k - 1);
      TraceInv(j, ss, acts, k);
      TraceStep(j, ss, acts, k - 1);
      InvShape(j, ss[k]);
      GateStoryStep(j, ss[k - 1], acts[k - 1], i, GaveUp(acts, k - 1, i));
    }
  }

  lemma GateStoryStep(j: Job, s: State, a: Action, i: nat, gaveUp: bool)
    requires ValidJob(j) && Inv(j, s) && Shape(j, s) && Enabled(j, s, a) && i < |j.ranges| && GateStory(s, i, gaveUp)
    ensures var t := Next(j, s, a);
      Shape(j, t) && GateStory(t, i, gaveUp || (a.By? && a.i == i && (a.w.SetupFails? || a.w.WaitFails?)))
  {
    hide ValidJob, Inv, WorkerNext;
    match a
    case By(w, step) => GateStoryOfWorker(j, s, w, step, i, gaveUp);
    case Parent(_) =>
  }

  lemma TraceStep(j: Job, ss: seq<State>, acts: seq<Action>, k: nat)
    requires ValidJob(j) && Trace(j, ss, acts) && k < |acts|
    ensures Shape(j, ss[k]) && Enabled(j, ss[k], acts[k]) && ss[k + 1] == Next(j, ss[k], acts[k])
  {
  }

  lemma InvShape(j: Job, s: State)
    requires ValidJob(j) && Inv(j, s)
    ensures Shape(j, s)
  {
  }

  lemma GaveUpStep(acts: seq<Action>, k: nat, i: nat)
    requires 0 < k <= |acts|
    ensures var a := acts[k - 1];
      GaveUp(acts, k, i)
      <==> (GaveUp(acts, k - 1, i) || (a.By? && a.i == i && (a.w.SetupFails? || a.w.WaitFails?)))
  {
  }

  lemma GateStoryOfWorker(j: Job, s: State, w: nat, step: WorkerStep, i: nat, gaveUp: bool)
    requires ValidJob(j) && Inv(j, s) && w < |j.ranges| && WorkerEnabled(j, w, s.phases[w], step)
    requires i < |j.ranges| && GateStory(s, i, gaveUp)
    ensures var t := WorkerNext(j, s, w, step);
      Shape(j, t) && GateStory(t, i, gaveUp || (w == i && (step.SetupFails? || step.WaitFails?)))
  {
    hide ValidJob, GateInv, DoneInv, ParentInv, LocalInv, GoodChunk, HasCounted;
    assert WorkerInv(j, s, i) && WorkerInv(j, s, w);
    EffectIsSound(j, s, w, step);
  }

  /**
   * The slots that are stored by a worker that never saw the gate open are exactly those of the workers that gave
   * up in setup or in the wait.
   */
  lemma SlotsBeforeTheGate(j: Job, ss: seq<State>, acts: seq<Action>, k: nat, i: nat)
    requires ValidJob(j) && Trace(j, ss, acts) && k < |ss| && i < |j.ranges|
    requires Shape(j, ss[k]) && HasStored(ss[k], i)
    ensures i !in ss[k].sawOpen <==> GaveUp(acts, k, i)
  {
    hide ValidJob, Trace, GaveUp;
    GateStoryHolds(j, ss, acts, k, i);
  }

  // ---------- how a job ends ----------

  ghost predicate AllReaped(j: Job, s: State) {
    forall i :: 0 <= i < |j.ranges| ==> i in s.reaped
  }

  ghost predicate AllExitedZero(j: Job, s: State) {
    |s.phases| == |j.ranges| && forall i :: 0 <= i < |j.ranges| ==> s.phases[i] == Gone(Code(0))
  }

  /**
   * When every worker has been reaped and exited 0, the controller's next load of chunks_done can only return
   * nchunks, and every slot holds the result of its slice; a copy is published as `output`.
   */
  lemma CleanExitMeansCleanSlots(j: Job, s: State)
    requires ValidJob(j) && Inv(j, s) && AllReaped(j, s) && AllExitedZero(j, s)
    ensures s.parentSeen == |s.done| == |j.ranges|
    ensures forall i :: 0 <= i < |j.ranges| ==> s.slots[i] == GoodChunk(j.op, j.file, i, j.ranges[i])
    ensures j.op.OpCopy? ==> s.output == Some(j.file)
  {
    RangesFit(j);
    InvShape(j, s);
    hide ValidJob, GoodChunk, Inv, AllReaped, AllExitedZero, HasCounted;
    forall i | 0 <= i < |j.ranges|
      ensures s.slots[i] == GoodChunk(j.op, j.file, i, j.ranges[i]) && HasCounted(s, i)
      ensures j.op.OpCopy? ==> s.output == Some(j.file)
    {
      CleanExit(j, s, i);
    }
    CounterIsExact(j, s);
    LastReaped(j, s);
  }

  lemma CleanExit(j: Job, s: State, i: nat)
    requires ValidJob(j) && Inv(j, s) && AllExitedZero(j, s) && i < |j.ranges|
    ensures s.slots[i] == GoodChunk(j.op, j.file, i, j.ranges[i]) && HasCounted(s, i)
    ensures j.op.OpCopy? ==> s.output == Some(j.file)
  {
    RangesFit(j);
    hide LocalInv, ValidJob, GoodChunk, HasStored, GateInv, DoneInv, ParentInv;
    assert WorkerInv(j, s, i);
    CleanWorker(j, i, LocalOf(s, i));
  }

  /** waitid of the worker that counted last brings every increment into view. */
  lemma LastReaped(j: Job, s: State)
    requires ValidJob(j) && Inv(j, s) && AllReaped(j, s) && |s.done| == |j.ranges|
    ensures s.parentSeen == |s.done|
  {
    RangesFit(j);
    hide LocalInv, ValidJob, GoodChunk, HasStored, GateInv, WorkerInv;
    var last := |s.done| - 1;
    assert s.done[last].who in s.reaped;
  }

  lemma CleanWorker(j: Job, i: nat, l: Local)
    requires ValidJob(j) && i < |j.ranges| && LocalInv(j, i, l) && l.phase == Gone(Code(0))
    ensures l.slot == GoodChunk(j.op, j.file, i, j.ranges[i]) && l.counted
    ensures j.op.OpCopy? ==> l.output == Some(j.file)
  {
    hide ValidJob, GoodChunk;
  }
}
