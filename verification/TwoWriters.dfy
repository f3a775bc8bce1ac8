/**
 * The directory of a copy job has two writers at once: the worker publishes `output` while the controller saves the
 * record. Each replaces its own file through its own temporary file, and their calls can interleave in any way.
 */
module TwoWriters {
  import opened Base
  import opened MetaCodec
  import opened CrashFs

  // ---------- one writer ----------

  /** How far a writer has come in replacing its file. */
  datatype Progress =
    | Ready
    | Made(done: nat)   // the temporary file exists and holds the first `done` bytes
    | Synced            // fsync of the file
    | Renamed           // over the name
    | Settled           // fsync of the directory: the call reports success
    | Stopped           // a call failed, or the writer was killed

  datatype Writer = Writer(name: string, tmp: string, data: string, at: Progress)

  datatype Call = Open | Write(n: nat) | SyncFile | Rename | SyncDir | Stop(unlink: bool)

  predicate Enabled(w: Writer, c: Call) {
    match c
    case Open => w.at.Ready?
    case Write(n) => w.at.Made? && w.at.done + n <= |w.data|
    case SyncFile => w.at.Made? && w.at.done == |w.data|
    case Rename => w.at.Synced?
    case SyncDir => w.at.Renamed?
    case Stop(unlink) => !w.at.Settled? && (unlink ==> w.at.Made? || w.at.Synced?)
  }

  function After(w: Writer, c: Call): Writer
    requires Enabled(w, c)
  {
    match c
    case Open => w.(at := Made(0))
    case Write(n) => w.(at := Made(w.at.done + n))
    case SyncFile => w.(at := Synced)
    case Rename => w.(at := Renamed)
    case SyncDir => w.(at := Settled)
    case Stop(_) => w.(at := Stopped)
  }

  function Effect(f: Fs, w: Writer, c: Call): Fs
    requires Enabled(w, c)
  {
    match c
    case Open => Create(f, w.tmp)
    case Write(n) => CrashFs.Write(f, w.tmp, w.data[w.at.done..w.at.done + n])
    case SyncFile => CrashFs.SyncFile(f, w.tmp)
    case Rename => CrashFs.Rename(f, w.tmp, w.name)
    case SyncDir => CrashFs.SyncDir(f)
    case Stop(unlink) => if unlink then Unlink(f, w.tmp) else f
  }

  predicate FileIs(f: Fs, n: string, i: Inode) {
    n in f.names && f.names[n] in f.inodes && f.inodes[f.names[n]] == i
  }

  /** What the writer has achieved so far. */
  ghost predicate Holds(f: Fs, w: Writer) {
    match w.at
    case Ready | Stopped => true
    case Made(done) =>
      done <= |w.data| && w.tmp in f.names && f.names[w.tmp] in f.inodes
      && f.inodes[f.names[w.tmp]].content == w.data[..done]
    case Synced => FileIs(f, w.tmp, Inode(w.data, false))
    case Renamed => FileIs(f, w.name, Inode(w.data, false))
    case Settled => FileIs(f, w.name, Inode(w.data, false)) && Candidates(f, w.name) == {Current(f, w.name)}
  }

  /** The writer's file is not another's temporary file. */
  predicate Placed(w: Writer, temps: set<string>) {
    w.tmp in temps && w.name !in temps
  }

  /** Each call of a writer keeps what it promises, and changes the outcomes of its own name only, to old or new. */
  lemma CallKeeps(f: Fs, w: Writer, c: Call, temps: set<string>)
    requires Valid(f, temps) && Placed(w, temps) && Holds(f, w) && Enabled(w, c)
    ensures var g := Effect(f, w, c);
      Valid(g, temps) && OldOrNew(f, g, w.name, w.tmp, w.data) && Holds(g, After(w, c))
  {
    hide Valid, OnlyTemp, OldOrNew, Create, CrashFs.Write, CrashFs.SyncFile, CrashFs.Rename, CrashFs.SyncDir, Unlink,
         Candidates;
    var g := Effect(f, w, c);
    SameOnlyTemp(f, w.tmp, temps);
    match c
    case Open =>
      CreateOnlyTemp(f, w.tmp, temps);
      TempThenOld(f, f, g, w.name, w.tmp, temps, w.data);
    case Write(n) =>
      WriteOnlyTemp(f, f, w.tmp, temps, w.data[w.at.done..w.at.done + n]);
      TempThenOld(f, f, g, w.name, w.tmp, temps, w.data);
    case SyncFile =>
      SyncOnlyTemp(f, f, w.tmp, temps);
      TempThenOld(f, f, g, w.name, w.tmp, temps, w.data);
      assert w.data[..|w.data|] == w.data;
    case Rename =>
      RenameIsOldOrNew(f, w.name, w.tmp, temps, w.data);
    case SyncDir =>
      SyncDirSettles(f, temps);
      SameOldOrNew(f, w.name, w.tmp, w.data);
      OldOrNewThenSettled(f, f, g, w.name, w.tmp, w.data);
      SettledAlone(f, w.name);
    case Stop(unlink) =>
      UnlinkOnlyTemp(f, w.tmp, temps);
      TempThenOld(f, f, g, w.name, w.tmp, temps, w.data);
  }

  lemma SettledAlone(f: Fs, n: string)
    ensures var g := CrashFs.SyncDir(f);
      Candidates(g, n) == {Current(g, n)} && g.names == f.names && g.inodes == f.inodes
  {
  }

  // ---------- two writers ----------

  predicate Apart(w: Writer, v: Writer) {
    w.name != v.name && w.tmp != v.tmp && w.name != v.tmp && w.tmp != v.name
  }

  /** A call leaves the files of all other names alone. */
  lemma OthersUntouched(f: Fs, w: Writer, c: Call, temps: set<string>, n: string)
    requires Valid(f, temps) && Placed(w, temps) && Enabled(w, c) && n != w.tmp && n != w.name
    ensures var g := Effect(f, w, c);
      && (n in g.names <==> n in f.names) && (n in f.names ==> g.names[n] == f.names[n])
      && (n in f.names && f.names[n] in f.inodes ==>
            f.names[n] in g.inodes && g.inodes[f.names[n]] == f.inodes[f.names[n]])
      && (Candidates(g, n) == Candidates(f, n) || Candidates(g, n) == {Current(f, n)})
  {
    hide CrashFs.Fits, Outcome;
    assert Private(f, w.tmp);
    if n in f.names {
      assert Some(f.names[n]) in Candidates(f, n);
      NewFileIsUnshared(f, temps, n, n);
    }
  }

  /** What one writer has achieved survives every call of the other. */
  lemma OtherKeeps(f: Fs, w: Writer, c: Call, v: Writer, temps: set<string>)
    requires Valid(f, temps) && Placed(w, temps) && Enabled(w, c) && Apart(w, v) && Holds(f, v)
    ensures Holds(Effect(f, w, c), v)
  {
    OthersUntouched(f, w, c, temps, v.tmp);
    OthersUntouched(f, w, c, temps, v.name);
    hide Valid, Effect, Candidates;
  }

  // ---------- a copy job ----------

  /** The worker and the controller at work on one directory. */
  datatype Pair = Pair(fs: Fs, worker: Writer, controller: Writer)

  /** A call of either, or the controller beginning to save another record. */
  datatype Move = ByWorker(c: Call) | ByController(c: Call) | Begins(m: Meta)

  ghost predicate CanMove(p: Pair, m: Move) {
    match m
    case ByWorker(c) => Enabled(p.worker, c)
    case ByController(c) => Enabled(p.controller, c)
    case Begins(r) => (p.controller.at.Settled? || p.controller.at.Stopped?) && Unfinished(r)
  }

  function Moved(p: Pair, m: Move): Pair
    requires m.ByWorker? ==> Enabled(p.worker, m.c)
    requires m.ByController? ==> Enabled(p.controller, m.c)
  {
    match m
    case ByWorker(c) => p.(fs := Effect(p.fs, p.worker, c), worker := After(p.worker, c))
    case ByController(c) => p.(fs := Effect(p.fs, p.controller, c), controller := After(p.controller, c))
    case Begins(r) => p.(controller := p.controller.(data := MetaToText(r), at := Ready))
  }

  ghost predicate PairInv(p: Pair, temps: set<string>) {
    && Valid(p.fs, temps) && Placed(p.worker, temps) && Placed(p.controller, temps) && Apart(p.worker, p.controller)
    && Holds(p.fs, p.worker) && Holds(p.fs, p.controller)
    && NotCompleted(p.fs, p.controller.name) && !SaysCompleted(p.controller.data)
  }

  lemma MoveKeeps(p: Pair, m: Move, temps: set<string>)
    requires PairInv(p, temps) && CanMove(p, m)
    ensures PairInv(Moved(p, m), temps)
  {
    hide Valid, Holds, Effect, NotCompleted, SaysCompleted, OldOrNew, Unfinished, MetaToText;
    match m
    case ByWorker(c) =>
      CallKeeps(p.fs, p.worker, c, temps);
      OtherKeeps(p.fs, p.worker, c, p.controller, temps);
      StillNotYet(p.fs, Effect(p.fs, p.worker, c), p.controller.name, p.worker.name, p.worker.tmp, p.worker.data);
    case ByController(c) =>
      CallKeeps(p.fs, p.controller, c, temps);
      OtherKeeps(p.fs, p.controller, c, p.worker, temps);
      NotYet(p.fs, Effect(p.fs, p.controller, c), p.controller.name, p.worker.name, p.controller.tmp,
             p.controller.data, p.worker.data);
    case Begins(r) =>
      UnfinishedText(r);
      BeginsHolds(p.fs, p.controller, MetaToText(r));
  }

  lemma BeginsHolds(f: Fs, w: Writer, data: string)
    ensures Holds(f, w.(data := data, at := Ready))
  {
  }

  /** Any interleaving. */
  ghost predicate Interleaving(ps: seq<Pair>, ms: seq<Move>, temps: set<string>) {
    && |ps| == |ms| + 1 && PairInv(ps[0], temps) && ps[0].worker.at.Ready?
    && forall k :: 0 <= k < |ms| ==> CanMove(ps[k], ms[k]) && ps[k + 1] == Moved(ps[k], ms[k])
  }

  lemma {:induction false} InterleavingKeeps(ps: seq<Pair>, ms: seq<Move>, temps: set<string>, k: nat)
    requires Interleaving(ps, ms, temps) && k < |ps|
    ensures PairInv(ps[k], temps)
    ensures ps[k].worker == ps[0].worker.(at := ps[k].worker.at)
    ensures ps[k].controller == ps[0].controller.(data := ps[k].controller.data, at := ps[k].controller.at)
  {
    hide PairInv, CanMove, Effect;
    if k > 0 {
      InterleavingKeeps(ps, ms, temps, k - 1);
      MoveKeeps(ps[k - 1], ms[k - 1], temps);
      assert CanMove(ps[k - 1], ms[k - 1]);
    }
  }

  lemma InterleavingPlaces(ps: seq<Pair>, ms: seq<Move>, temps: set<string>)
    requires Interleaving(ps, ms, temps)
    ensures var p := ps[|ms|];
      && Valid(p.fs, temps) && Placed(ps[0].worker, temps) && Placed(ps[0].controller, temps)
      && Apart(ps[0].worker, ps[0].controller)
  {
    hide Valid, NotCompleted, SaysCompleted, Effect, Holds;
    InterleavingKeeps(ps, ms, temps, |ms|);
  }

  /**
   * Wherever power fails during an interleaving, the record cannot be found to say completed; and once the worker's
   * publish has reported success its file is durable, whatever the controller does to the record.
   */
  lemma PublishedIsDurable(ps: seq<Pair>, ms: seq<Move>, temps: set<string>, k: nat)
    requires Interleaving(ps, ms, temps) && k < |ps|
    ensures NotCompleted(ps[k].fs, ps[0].controller.name)
    ensures CompletedIsComplete(ps[k].fs, ps[0].controller.name, ps[0].worker.name, ps[0].worker.data)
    ensures ps[k].worker.at.Settled? ==> Durable(ps[k].fs, ps[0].worker.name, ps[0].worker.data)
  {
    hide Interleaving, Valid, SaysCompleted, Candidates, CrashFs.Fits, Outcome;
    InterleavingKeeps(ps, ms, temps, k);
    if ps[k].worker.at.Settled? {
      AloneIsDurable(ps[k].fs, ps[k].worker.name, ps[k].worker.data);
    }
  }

  lemma AloneIsDurable(f: Fs, n: string, data: string)
    requires FileIs(f, n, Inode(data, false)) && Candidates(f, n) == {Current(f, n)}
    ensures Durable(f, n, data)
  {
  }
}
