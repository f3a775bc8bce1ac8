/**
 * Durable replacement of a small file: atomic_write_file and publish_file of store.cpp, on a directory that can
 * lose power at any point. After a crash each name is, independently, any of the files it has named since the last
 * fsync of the directory, and a file that was not fsynced holds anything. The characters stand for bytes.
 */
module CrashFs {
  import opened Base
  import opened MetaCodec

  // ---------- the directory ----------

  /** A file; `dirty` until its bytes are fsynced. */
  datatype Inode = Inode(content: string, dirty: bool)

  /** The directory, and for each name what else it may turn out to be after a crash. */
  datatype Fs = Fs(inodes: map<nat, Inode>, names: map<string, nat>, earlier: map<string, set<Option<nat>>>, next: nat)

  function Current(f: Fs, n: string): Option<nat> {
    if n in f.names then Some(f.names[n]) else None
  }

  function Candidates(f: Fs, n: string): set<Option<nat>> {
    (if n in f.earlier then f.earlier[n] else {}) + {Current(f, n)}
  }

  /** Whether `c` can be what is read of candidate `v` after a crash. */
  ghost predicate Fits(f: Fs, v: Option<nat>, c: Option<string>) {
    match v
    case None => c.None?
    case Some(i) => c.Some? && (i in f.inodes && !f.inodes[i].dirty ==> c.value == f.inodes[i].content)
  }

  /** Whether a reader after a crash can find `c` under the name: None is no file, Some its bytes. */
  ghost predicate Outcome(f: Fs, n: string, c: Option<string>) {
    exists v :: v in Candidates(f, n) && Fits(f, v, c)
  }

  /** After a crash the name can only hold `data`: it is durable. */
  ghost predicate Durable(f: Fs, n: string, data: string) {
    forall c :: Outcome(f, n, c) ==> c == Some(data)
  }

  /** A temporary name shares its file with no other name, not even with one a crash could bring back. */
  ghost predicate Private(f: Fs, t: string) {
    t in f.names ==> forall n :: n != t ==> Some(f.names[t]) !in Candidates(f, n)
  }

  ghost predicate Valid(f: Fs, temps: set<string>) {
    && (forall n, i :: Some(i) in Candidates(f, n) ==> i in f.inodes)
    && (forall i :: i in f.inodes ==> i < f.next)
    && (forall t :: t in temps ==> Private(f, t))
  }

  // ---------- the system calls ----------

  function Earlier(f: Fs, n: string): map<string, set<Option<nat>>> {
    f.earlier[n := Candidates(f, n)]
  }

  /** openat(O_CREAT | O_TRUNC): a new empty file, or the old one emptied. */
  function Create(f: Fs, n: string): Fs {
    if n in f.names then f.(inodes := f.inodes[f.names[n] := Inode([], true)])
    else f.(inodes := f.inodes[f.next := Inode([], true)], names := f.names[n := f.next],
            earlier := Earlier(f, n), next := f.next + 1)
  }

  function Write(f: Fs, n: string, bytes: string): Fs {
    if n in f.names && f.names[n] in f.inodes then
      f.(inodes := f.inodes[f.names[n] := Inode(f.inodes[f.names[n]].content + bytes, true)])
    else f
  }

  function SyncFile(f: Fs, n: string): Fs {
    if n in f.names && f.names[n] in f.inodes then
      f.(inodes := f.inodes[f.names[n] := f.inodes[f.names[n]].(dirty := false)])
    else f
  }

  /** renameat2: one directory update. */
  function Rename(f: Fs, a: string, b: string): Fs {
    if a in f.names && a != b then
      f.(names := (f.names - {a})[b := f.names[a]], earlier := Earlier(f, a)[b := Candidates(f, b)])
    else f
  }

  function Unlink(f: Fs, n: string): Fs {
    if n in f.names then f.(names := f.names - {n}, earlier := Earlier(f, n)) else f
  }

  /** fsync of the directory: every name is settled. */
  function SyncDir(f: Fs): Fs {
    f.(earlier := map[])
  }

  // ---------- what each call does to the outcomes ----------

  /** No outcome of `n` is new. */
  ghost predicate NothingNew(f: Fs, g: Fs, n: string) {
    forall c :: Outcome(g, n, c) ==> Outcome(f, n, c)
  }

  /** The only new outcome of `name` is `data`, and no other name but the temporary one has a new outcome. */
  ghost predicate OldOrNew(f: Fs, g: Fs, name: string, tmp: string, data: string) {
    && (forall c :: Outcome(g, name, c) ==> Outcome(f, name, c) || c == Some(data))
    && (forall n :: n != name && n != tmp ==> NothingNew(f, g, n))
  }

  /** As long as only the temporary name is touched, every other name is as it was. */
  ghost predicate OnlyTemp(f: Fs, g: Fs, tmp: string, temps: set<string>) {
    Valid(g, temps) && forall n :: n != tmp ==> Candidates(g, n) == Candidates(f, n) && NothingNew(f, g, n)
  }

  /** A change to one file changes the outcomes of no name that cannot be that file. */
  lemma InodeChange(f: Fs, g: Fs, i: nat, n: string)
    requires i in g.inodes && g.inodes == f.inodes[i := g.inodes[i]]
    requires Candidates(g, n) == Candidates(f, n) && Some(i) !in Candidates(f, n)
    ensures NothingNew(f, g, n)
  {
    forall c | Outcome(g, n, c) ensures Outcome(f, n, c) {
      var v :| v in Candidates(g, n) && Fits(g, v, c);
      assert Fits(f, v, c);
    }
  }

  lemma CreateOnlyTemp(f: Fs, tmp: string, temps: set<string>)
    requires Valid(f, temps) && tmp in temps
    ensures OnlyTemp(f, Create(f, tmp), tmp, temps)
    ensures var g := Create(f, tmp); tmp in g.names && g.names[tmp] in g.inodes && g.inodes[g.names[tmp]].content == []
  {
    var g := Create(f, tmp);
    assert forall n :: n != tmp ==> Candidates(g, n) == Candidates(f, n);
    assert Private(f, tmp);
    forall n | n != tmp ensures NothingNew(f, g, n) {
      InodeChange(f, g, g.names[tmp], n);
    }
    hide NothingNew, Outcome, Fits;
    forall t | t in temps ensures Private(g, t) {
      assert Private(f, t);
      if t in g.names {
        forall n | n != t ensures Some(g.names[t]) !in Candidates(g, n) {
          NewFileIsUnshared(f, temps, t, n);
        }
      }
    }
    forall n, i | Some(i) in Candidates(g, n) ensures i in g.inodes {
      assert Some(i) in Candidates(f, n) || i == g.names[tmp];
    }
    assert tmp in f.names ==> Some(f.names[tmp]) in Candidates(f, tmp);
  }

  lemma NewFileIsUnshared(f: Fs, temps: set<string>, t: string, n: string)
    requires Valid(f, temps)
    ensures Some(f.next) !in Candidates(f, n) && (t in f.names ==> f.names[t] != f.next)
  {
    assert Some(f.next) in Candidates(f, n) ==> f.next in f.inodes;
    if t in f.names {
      assert Some(f.names[t]) in Candidates(f, t);
    }
  }

  /** Writing to, or syncing, the temporary file. */
  lemma TouchOnlyTemp(f: Fs, g: Fs, tmp: string, temps: set<string>)
    requires Valid(f, temps) && tmp in temps && tmp in f.names
    requires g == f.(inodes := g.inodes) && g.inodes.Keys == f.inodes.Keys
    requires f.names[tmp] in f.inodes && g.inodes == f.inodes[f.names[tmp] := g.inodes[f.names[tmp]]]
    ensures OnlyTemp(f, g, tmp, temps)
  {
    assert forall n :: Candidates(g, n) == Candidates(f, n);
    assert Private(f, tmp);
    forall n | n != tmp ensures NothingNew(f, g, n) {
      InodeChange(f, g, g.names[tmp], n);
    }
    hide NothingNew;
    forall t | t in temps ensures Private(g, t) {
      assert Private(f, t);
    }
  }

  lemma UnlinkOnlyTemp(f: Fs, tmp: string, temps: set<string>)
    requires Valid(f, temps) && tmp in temps
    ensures OnlyTemp(f, Unlink(f, tmp), tmp, temps)
  {
    var g := Unlink(f, tmp);
    forall n | n != tmp ensures Candidates(g, n) == Candidates(f, n) && NothingNew(f, g, n) {
    }
    assert forall i :: Some(i) in Candidates(g, tmp) ==> Some(i) in Candidates(f, tmp);
    forall t | t in temps ensures Private(g, t) {
      assert Private(f, t);
    }
  }

  lemma OnlyTempOn(f: Fs, g: Fs, h: Fs, tmp: string, temps: set<string>)
    requires OnlyTemp(f, g, tmp, temps) && OnlyTemp(g, h, tmp, temps)
    ensures OnlyTemp(f, h, tmp, temps)
  {
    hide Outcome, Candidates, Private;
    forall n | n != tmp ensures NothingNew(f, h, n) {
      assert NothingNew(f, g, n) && NothingNew(g, h, n);
    }
    hide NothingNew;
  }

  lemma OnlyTempIsOld(f: Fs, g: Fs, name: string, tmp: string, temps: set<string>, data: string)
    requires OnlyTemp(f, g, tmp, temps) && name != tmp
    ensures OldOrNew(f, g, name, tmp, data)
  {
    hide Outcome, Candidates, Private;
    assert NothingNew(f, g, name);
  }

  /** Renaming a synced file: the name is the old file or the new one, never anything else. */
  lemma RenameIsOldOrNew(f: Fs, name: string, tmp: string, temps: set<string>, data: string)
    requires Valid(f, temps) && tmp in temps && name !in temps
    requires tmp in f.names && f.names[tmp] in f.inodes && f.inodes[f.names[tmp]] == Inode(data, false)
    ensures var g := Rename(f, tmp, name);
      && Valid(g, temps) && OldOrNew(f, g, name, tmp, data)
      && name in g.names && g.names[name] in g.inodes && g.inodes[g.names[name]] == Inode(data, false)
  {
    var g := Rename(f, tmp, name);
    assert Candidates(g, name) == Candidates(f, name) + {Some(f.names[tmp])};
    assert Candidates(g, tmp) <= Candidates(f, tmp) + {None};
    forall n | n != name && n != tmp ensures Candidates(g, n) == Candidates(f, n) && NothingNew(f, g, n) {
    }
    forall c | Outcome(g, name, c) ensures Outcome(f, name, c) || c == Some(data) {
      var v :| v in Candidates(g, name) && Fits(g, v, c);
      assert v in Candidates(f, name) ==> Fits(f, v, c);
    }
    hide NothingNew, Outcome, Fits;
    forall t | t in temps ensures Private(g, t) {
      assert Private(f, t) && Private(f, tmp);
    }
  }

  /** fsync of the directory forgets the alternatives. */
  lemma SyncDirSettles(f: Fs, temps: set<string>)
    requires Valid(f, temps)
    ensures Valid(SyncDir(f), temps) && forall n :: NothingNew(f, SyncDir(f), n)
  {
    var g := SyncDir(f);
    forall n ensures Candidates(g, n) == {Current(f, n)} && Current(f, n) in Candidates(f, n) && NothingNew(f, g, n) {
    }
    hide NothingNew, Outcome, Fits;
    forall t | t in temps ensures Private(g, t) {
      assert Private(f, t);
    }
  }

  lemma SyncDirMakesDurable(f: Fs, name: string, data: string)
    requires name in f.names && f.names[name] in f.inodes && f.inodes[f.names[name]] == Inode(data, false)
    ensures Durable(SyncDir(f), name, data)
  {
    assert Candidates(SyncDir(f), name) == {Some(f.names[name])};
  }

  lemma OldOrNewThenSettled(f: Fs, g: Fs, h: Fs, name: string, tmp: string, data: string)
    requires OldOrNew(f, g, name, tmp, data) && forall n :: NothingNew(g, h, n)
    ensures OldOrNew(f, h, name, tmp, data)
  {
    hide Outcome;
    assert NothingNew(g, h, name);
    forall n | n != name && n != tmp ensures NothingNew(f, h, n) {
      assert NothingNew(f, g, n) && NothingNew(g, h, n);
    }
  }

  lemma SameOnlyTemp(f: Fs, tmp: string, temps: set<string>)
    requires Valid(f, temps)
    ensures OnlyTemp(f, f, tmp, temps)
  {
    hide Valid, Outcome, Candidates;
  }

  lemma SameOldOrNew(f: Fs, name: string, tmp: string, data: string)
    ensures OldOrNew(f, f, name, tmp, data)
  {
    hide Outcome;
  }

  lemma WriteOnlyTemp(f: Fs, g: Fs, tmp: string, temps: set<string>, bytes: string)
    requires OnlyTemp(f, g, tmp, temps) && tmp in temps && tmp in g.names && g.names[tmp] in g.inodes
    ensures var h := Write(g, tmp, bytes);
      && OnlyTemp(f, h, tmp, temps) && tmp in h.names && h.names[tmp] in h.inodes
      && h.inodes[h.names[tmp]].content == g.inodes[g.names[tmp]].content + bytes
  {
    hide Valid, Outcome, Candidates, NothingNew;
    TouchOnlyTemp(g, Write(g, tmp, bytes), tmp, temps);
    OnlyTempOn(f, g, Write(g, tmp, bytes), tmp, temps);
    hide OnlyTemp;
  }

  lemma SyncOnlyTemp(f: Fs, g: Fs, tmp: string, temps: set<string>)
    requires OnlyTemp(f, g, tmp, temps) && tmp in temps && tmp in g.names && g.names[tmp] in g.inodes
    ensures var h := SyncFile(g, tmp);
      && OnlyTemp(f, h, tmp, temps) && tmp in h.names && h.names[tmp] in h.inodes
      && h.inodes[h.names[tmp]] == Inode(g.inodes[g.names[tmp]].content, false)
  {
    hide Valid, Outcome, Candidates, NothingNew;
    TouchOnlyTemp(g, SyncFile(g, tmp), tmp, temps);
    OnlyTempOn(f, g, SyncFile(g, tmp), tmp, temps);
    hide OnlyTemp;
  }

  lemma TempThenOld(f: Fs, g: Fs, h: Fs, name: string, tmp: string, temps: set<string>, data: string)
    requires OnlyTemp(f, g, tmp, temps) && OnlyTemp(g, h, tmp, temps) && name != tmp
    ensures OldOrNew(f, h, name, tmp, data) && Valid(h, temps)
  {
    OnlyTempOn(f, g, h, tmp, temps);
    OnlyTempIsOld(f, h, name, tmp, temps, data);
    hide OldOrNew, NothingNew, Valid, Candidates;
  }

  lemma TempThenNew(f: Fs, g: Fs, h: Fs, name: string, tmp: string, temps: set<string>, data: string)
    requires OnlyTemp(f, g, tmp, temps) && OldOrNew(g, h, name, tmp, data) && name != tmp
    ensures OldOrNew(f, h, name, tmp, data)
  {
    hide Outcome, Candidates, Valid;
    assert NothingNew(f, g, name);
    forall n | n != name && n != tmp ensures NothingNew(f, h, n) {
      assert NothingNew(f, g, n) && NothingNew(g, h, n);
    }
  }

  // ---------- the code ----------

  /** Which calls fail, and how much each write takes. */
  datatype Answer = Answer(ok: bool, taken: nat)

  class JobDir {
    const temps: set<string>
    const script: nat -> Answer
    var calls: nat
    var fs: Fs
    ghost var trail: seq<Fs>  // the directory after every call so far: the points where power can fail

    constructor (fs: Fs, temps: set<string>, script: nat -> Answer)
      ensures this.fs == fs && this.temps == temps && this.script == script && trail == [fs] && calls == 0
    {
      this.fs, this.temps, this.script, this.calls, this.trail := fs, temps, script, 0, [fs];
    }

    method Call() returns (a: Answer)
      modifies this`calls
      ensures a == script(old(calls)) && calls == old(calls) + 1
    {
      a := script(calls);
      calls := calls + 1;
    }

    /** A call takes effect. */
    method Step(f: Fs)
      modifies this`fs, this`trail
      ensures fs == f && trail == old(trail) + [f]
    {
      fs := f;
      trail := trail + [f];
    }

    /** openat and write_all of the temporary file. On success it holds `data`. */
    method WriteTemp(tmp: string, data: string) returns (made: bool, ok: bool)
      requires Valid(fs, temps) && tmp in temps
      modifies this
      ensures |old(trail)| <= |trail| && trail[..|old(trail)|] == old(trail)
      ensures forall k :: |old(trail)| <= k < |trail| ==> OnlyTemp(old(fs), trail[k], tmp, temps)
      ensures OnlyTemp(old(fs), fs, tmp, temps)
      ensures !made ==> !ok && fs == old(fs)
      ensures ok ==> tmp in fs.names && fs.names[tmp] in fs.inodes && fs.inodes[fs.names[tmp]].content == data
    {
      hide Valid, OnlyTemp, Create, Write;
      ghost var f0 := fs;
      SameOnlyTemp(fs, tmp, temps);
      var created := Call();
      if !created.ok {
        return false, false;
      }
      CreateOnlyTemp(fs, tmp, temps);
      Step(Create(fs, tmp));
      ghost var n := |old(trail)|;
      var done := 0;
      while done < |data|
        invariant done <= |data|
        invariant |trail| >= n && trail[..n] == old(trail)
        invariant forall k :: n <= k < |trail| ==> OnlyTemp(f0, trail[k], tmp, temps)
        invariant OnlyTemp(f0, fs, tmp, temps)
        invariant tmp in fs.names && fs.names[tmp] in fs.inodes && fs.inodes[fs.names[tmp]].content == data[..done]
        decreases |data| - done
      {
        var w := Call();
        if !w.ok || w.taken == 0 {
          return true, false;
        }
        var taken := if w.taken > |data| - done then |data| - done else w.taken;
        var bytes := data[done..done + taken];
        WriteOnlyTemp(f0, fs, tmp, temps, bytes);
        assert data[..done] + bytes == data[..done + taken];
        Step(Write(fs, tmp, bytes));
        done := done + taken;
      }
      assert data[..done] == data;
      return true, true;
    }

    /** unlinkat of the temporary file, whose result is ignored. */
    method Discard(tmp: string)
      requires Valid(fs, temps) && tmp in temps
      modifies this
      ensures |old(trail)| <= |trail| && trail[..|old(trail)|] == old(trail)
      ensures forall k :: |old(trail)| <= k < |trail| ==> OnlyTemp(old(fs), trail[k], tmp, temps)
      ensures OnlyTemp(old(fs), fs, tmp, temps)
    {
      hide Valid, OnlyTemp, Unlink;
      SameOnlyTemp(fs, tmp, temps);
      var a := Call();
      if a.ok {
        UnlinkOnlyTemp(fs, tmp, temps);
        Step(Unlink(fs, tmp));
      }
    }

    /**
     * publish_file, and the end of atomic_write_file: fsync of the file, rename, fsync of the directory. At every
     * point the name is old or new, and on success it is durably new.
     */
    method Publish(tmp: string, name: string, data: string) returns (ok: bool, renamed: bool)
      requires Valid(fs, temps) && tmp in temps && name !in temps
      requires tmp in fs.names && fs.names[tmp] in fs.inodes && fs.inodes[fs.names[tmp]].content == data
      modifies this
      ensures |old(trail)| <= |trail| && trail[..|old(trail)|] == old(trail)
      ensures forall k :: |old(trail)| <= k < |trail| ==> OldOrNew(old(fs), trail[k], name, tmp, data)
      ensures Valid(fs, temps) && OldOrNew(old(fs), fs, name, tmp, data)
      ensures ok ==> Durable(fs, name, data)
      ensures !renamed ==> !ok && OnlyTemp(old(fs), fs, tmp, temps)
    {
      hide Valid, OldOrNew, Rename, SyncDir, SyncFile, Durable, OnlyTemp;
      SameOldOrNew(fs, name, tmp, data);
      SameOnlyTemp(fs, tmp, temps);
      var synced := Call();
      if !synced.ok {
        return false, false;
      }
      ghost var f0 := fs;
      SyncOnlyTemp(f0, fs, tmp, temps);
      TempThenOld(f0, f0, SyncFile(fs, tmp), name, tmp, temps, data);
      Step(SyncFile(fs, tmp));
      ghost var f1 := fs;
      var moved := Call();
      if !moved.ok {
        return false, false;
      }
      RenameIsOldOrNew(f1, name, tmp, temps, data);
      TempThenNew(f0, f1, Rename(f1, tmp, name), name, tmp, temps, data);
      Step(Rename(fs, tmp, name));
      var settled := Call();
      if !settled.ok {
        return false, true;
      }
      SyncDirSettles(fs, temps);
      SyncDirMakesDurable(fs, name, data);
      OldOrNewThenSettled(f0, fs, SyncDir(fs), name, tmp, data);
      Step(SyncDir(fs));
      return true, true;
    }

    /**
     * atomic_write_file. Wherever power fails the name holds what it could have held before or exactly `data`, and
     * no other name is affected; when the call reports success, `data` is durable.
     */
    method AtomicWriteFile(name: string, tmp: string, data: string) returns (ok: bool)
      requires Valid(fs, temps) && tmp in temps && name !in temps
      modifies this
      ensures |old(trail)| <= |trail| && trail[..|old(trail)|] == old(trail)
      ensures forall k :: |old(trail)| <= k < |trail| ==> OldOrNew(old(fs), trail[k], name, tmp, data)
      ensures Valid(fs, temps) && OldOrNew(old(fs), fs, name, tmp, data)
      ensures ok ==> Durable(fs, name, data)
    {
      hide OldOrNew, Durable, Valid;
      SameOldOrNew(fs, name, tmp, data);
      var dir := Call();
      if !dir.ok {
        return false;
      }
      ok := Replace(name, tmp, data);
    }

    /** Write, publish, and discard the temporary file if it was made and not renamed. */
    method Replace(name: string, tmp: string, data: string) returns (ok: bool)
      requires Valid(fs, temps) && tmp in temps && name !in temps
      modifies this
      ensures |old(trail)| <= |trail| && trail[..|old(trail)|] == old(trail)
      ensures forall k :: |old(trail)| <= k < |trail| ==> OldOrNew(old(fs), trail[k], name, tmp, data)
      ensures Valid(fs, temps) && OldOrNew(old(fs), fs, name, tmp, data)
      ensures ok ==> Durable(fs, name, data)
    {
      hide OnlyTemp, OldOrNew, Durable, Valid;
      SameOldOrNew(fs, name, tmp, data);
      ghost var f0 := fs;
      var made, written := WriteTemp(tmp, data);
      ghost var f1, n1 := fs, |trail|;
      SameOnlyTemp(f0, tmp, temps);
      TempThenOld(f0, f0, f1, name, tmp, temps, data);
      forall k | |old(trail)| <= k < n1 ensures OldOrNew(f0, trail[k], name, tmp, data) {
        TempThenOld(f0, f0, trail[k], name, tmp, temps, data);
      }
      var renamed := false;
      ok := false;
      if written {
        ok, renamed := Publish(tmp, name, data);
        TempThenNew(f0, f1, fs, name, tmp, temps, data);
        forall k | n1 <= k < |trail| ensures OldOrNew(f0, trail[k], name, tmp, data) {
          TempThenNew(f0, f1, trail[k], name, tmp, temps, data);
        }
      }
      if made && !renamed {
        ghost var f2, n2 := fs, |trail|;
        if written {
          OnlyTempOn(f0, f1, f2, tmp, temps);
        }
        Discard(tmp);
        TempThenOld(f0, f2, fs, name, tmp, temps, data);
        forall k | n2 <= k < |trail| ensures OldOrNew(f0, trail[k], name, tmp, data) {
          TempThenOld(f0, f2, trail[k], name, tmp, temps, data);
        }
      }
    }

    /** The copy branch of worker_entry: O_EXCL on the temporary file, then the streamed bytes, then publish_file. */
    method CopyOutput(name: string, tmp: string, data: string) returns (ok: bool)
      requires Valid(fs, temps) && tmp in temps && name !in temps
      modifies this
      ensures |old(trail)| <= |trail| && trail[..|old(trail)|] == old(trail)
      ensures forall k :: |old(trail)| <= k < |trail| ==> OldOrNew(old(fs), trail[k], name, tmp, data)
      ensures Valid(fs, temps) && OldOrNew(old(fs), fs, name, tmp, data)
      ensures ok ==> Durable(fs, name, data)
    {
      hide OldOrNew, Durable, Valid;
      SameOldOrNew(fs, name, tmp, data);
      var dir := Call();
      if !dir.ok || tmp in fs.names {
        return false;
      }
      ok := Replace(name, tmp, data);
    }

    // ---------- the end of a job ----------

    /** save_meta of a record that is not completed. */
    method SaveUnfinished(meta: string, metaTmp: string, m: Meta, ghost output: string, ghost body: string)
      requires Valid(fs, temps) && metaTmp in temps && meta !in temps && NotCompleted(fs, meta) && Unfinished(m)
      modifies this
      ensures |old(trail)| <= |trail| && trail[..|old(trail)|] == old(trail)
      ensures forall k :: |old(trail)| <= k < |trail| ==> CompletedIsComplete(trail[k], meta, output, body)
      ensures Valid(fs, temps) && NotCompleted(fs, meta)
    {
      hide OldOrNew, Durable, Valid, MetaToText, NotCompleted, CompletedIsComplete, Unfinished;
      ghost var f, n := fs, |trail|;
      var text := MetaToText(m);
      UnfinishedText(m);
      var saved := AtomicWriteFile(meta, metaTmp, text);
      NotYet(f, fs, meta, output, metaTmp, text, body);
      NotYetThroughout(f, trail, n, meta, output, metaTmp, text, body);
    }

    /** save_meta of the final record, once the output is durable. */
    method SaveFinal(meta: string, metaTmp: string, m: Meta, ghost output: string, ghost body: string)
      requires Valid(fs, temps) && metaTmp in temps && meta !in temps && output !in temps && meta != output
      requires Durable(fs, output, body)
      modifies this
      ensures |old(trail)| <= |trail| && trail[..|old(trail)|] == old(trail)
      ensures forall k :: |old(trail)| <= k < |trail| ==> CompletedIsComplete(trail[k], meta, output, body)
    {
      hide OldOrNew, Durable, Valid, MetaToText, CompletedIsComplete;
      ghost var f, n := fs, |trail|;
      var text := MetaToText(m);
      var saved := AtomicWriteFile(meta, metaTmp, text);
      NowCompleteThroughout(f, trail, n, meta, output, metaTmp, text, body);
    }

    /**
     * The writes of finalize for a job with a text result: the record as persisting, the output, and the final record,
     * or a failed one if the output could not be written. At every point where power can fail, if the record can be
     * found to say completed then the output is durable. `saves` is the records in the order in which they were saved.
     */
    method PersistResult(meta: string, output: string, metaTmp: string, outputTmp: string,
                         final: Meta, error: string, body: string)
      returns (written: bool, saves: seq<Meta>)
      requires Valid(fs, temps) && {metaTmp, outputTmp} <= temps && meta !in temps && output !in temps && meta != output
      requires NewlineFree(final) && '\n' !in error && NotCompleted(fs, meta)
      modifies this
      ensures |old(trail)| <= |trail| && trail[..|old(trail)|] == old(trail)
      ensures forall k :: |old(trail)| <= k < |trail| ==> CompletedIsComplete(trail[k], meta, output, body)
      ensures saves == [final.(state := Persisting), if written then final else final.(state := Failed, error := error)]
    {
      hide OldOrNew, Durable, Valid, NotCompleted, CompletedIsComplete, Unfinished;
      StillNewlineFree(final, error);
      SaveUnfinished(meta, metaTmp, final.(state := Persisting), output, body);
      saves := [final.(state := Persisting)];
      ghost var f, n := fs, |trail|;
      written := AtomicWriteFile(output, outputTmp, body);
      StillNotYet(f, fs, meta, output, outputTmp, body);
      StillNotYetThroughout(f, trail, n, meta, output, outputTmp, body);
      if written {
        SaveFinal(meta, metaTmp, final, output, body);
        saves := saves + [final];
      } else {
        SaveUnfinished(meta, metaTmp, final.(state := Failed, error := error), output, body);
        saves := saves + [final.(state := Failed, error := error)];
      }
    }

    /** A copy: the worker publishes the output; only if that worked does the controller save the final record. */
    method CopyThenSave(meta: string, output: string, metaTmp: string, outputTmp: string,
                        completed: Meta, failed: Meta, data: string)
      requires Valid(fs, temps) && {metaTmp, outputTmp} <= temps && meta !in temps && output !in temps && meta != output
      requires Unfinished(failed) && NotCompleted(fs, meta)
      modifies this
      ensures |old(trail)| <= |trail| && trail[..|old(trail)|] == old(trail)
      ensures forall k :: |old(trail)| <= k < |trail| ==> CompletedIsComplete(trail[k], meta, output, data)
    {
      hide OldOrNew, Durable, Valid, NotCompleted, CompletedIsComplete, Unfinished;
      ghost var f, n := fs, |trail|;
      var copied := CopyOutput(output, outputTmp, data);
      StillNotYet(f, fs, meta, output, outputTmp, data);
      StillNotYetThroughout(f, trail, n, meta, output, outputTmp, data);
      if copied {
        SaveFinal(meta, metaTmp, completed, output, data);
      } else {
        SaveUnfinished(meta, metaTmp, failed, output, data);
      }
    }
  }

  // ---------- completed means the output is there ----------

  /** Whether text_to_meta reads a completed record in a file. */
  predicate SaysCompleted(text: string) {
    match TextToMeta(text)
    case Ok(m) => m.state.Completed?
    case Bad(_) => false
  }

  /** No crash now can leave a record that says completed. */
  ghost predicate NotCompleted(f: Fs, meta: string) {
    forall text :: Outcome(f, meta, Some(text)) ==> !SaysCompleted(text)
  }

  /** If a crash now can leave a record that says completed, the output is durable. */
  ghost predicate CompletedIsComplete(f: Fs, meta: string, output: string, body: string) {
    (exists text :: Outcome(f, meta, Some(text)) && SaysCompleted(text)) ==> Durable(f, output, body)
  }

  /** A record of a job that is not completed, none of whose texts spills over its line. */
  ghost predicate Unfinished(m: Meta) {
    NewlineFree(m) && !m.state.Completed? && !m.state.UnknownState?
  }

  lemma UnfinishedText(m: Meta)
    requires Unfinished(m)
    ensures !SaysCompleted(MetaToText(m))
  {
    hide MetaToText, TextToMeta, NewlineFree, StateText;
    StateReadsBack(m);
    OnlyCompletedSaysSo(m.state);
  }

  lemma OnlyCompletedSaysSo(s: JobState)
    requires !s.UnknownState? && !s.Completed?
    ensures StateText(s) != StateText(Completed)
  {
    NamesAreTexts(StateText(s));
    assert ReadState(StateText(s)) == s;
  }

  lemma StillNewlineFree(m: Meta, error: string)
    requires NewlineFree(m) && '\n' !in error
    ensures Unfinished(m.(state := Persisting)) && Unfinished(m.(state := Failed, error := error))
  {
    forall k ensures var n := m.(state := Persisting); Get(n, k).Str? ==> '\n' !in Get(n, k).s {
      assert Get(m, k).Str? ==> '\n' !in Get(m, k).s;
    }
    forall k ensures var n := m.(state := Failed, error := error); Get(n, k).Str? ==> '\n' !in Get(n, k).s {
      assert Get(m, k).Str? ==> '\n' !in Get(m, k).s;
    }
  }

  /** A record that is durably on disk and not completed. */
  lemma DurableIsNotCompleted(f: Fs, meta: string, m: Meta)
    requires Durable(f, meta, MetaToText(m)) && Unfinished(m)
    ensures NotCompleted(f, meta)
  {
    UnfinishedText(m);
    hide Outcome, SaysCompleted, MetaToText;
  }

  /** Writing a record that does not say completed. */
  lemma NotYet(f: Fs, g: Fs, meta: string, output: string, tmp: string, text: string, body: string)
    requires NotCompleted(f, meta) && OldOrNew(f, g, meta, tmp, text) && !SaysCompleted(text)
    ensures NotCompleted(g, meta) && CompletedIsComplete(g, meta, output, body)
  {
    hide Outcome, SaysCompleted, Durable;
  }

  /** Writing the output leaves the record as it was. */
  lemma StillNotYet(f: Fs, g: Fs, meta: string, output: string, tmp: string, body: string)
    requires NotCompleted(f, meta) && OldOrNew(f, g, output, tmp, body) && meta != output && meta != tmp
    ensures NotCompleted(g, meta) && CompletedIsComplete(g, meta, output, body)
  {
    hide Outcome, SaysCompleted, Durable;
    assert NothingNew(f, g, meta);
  }

  /** Writing the final record leaves a durable output durable. */
  lemma NowComplete(f: Fs, g: Fs, meta: string, output: string, tmp: string, text: string, body: string)
    requires Durable(f, output, body) && OldOrNew(f, g, meta, tmp, text) && meta != output && output != tmp
    ensures Durable(g, output, body) && CompletedIsComplete(g, meta, output, body)
  {
    hide Outcome, SaysCompleted;
    assert NothingNew(f, g, output);
  }

  // ---------- the same for a stretch of the trail ----------

  lemma NotYetThroughout(f: Fs, trail: seq<Fs>, n: nat, meta: string, output: string, tmp: string, text: string,
                         body: string)
    requires NotCompleted(f, meta) && !SaysCompleted(text)
    requires forall k :: n <= k < |trail| ==> OldOrNew(f, trail[k], meta, tmp, text)
    ensures forall k :: n <= k < |trail| ==> CompletedIsComplete(trail[k], meta, output, body)
  {
    hide *;
    forall k | n <= k < |trail| ensures CompletedIsComplete(trail[k], meta, output, body) {
      NotYet(f, trail[k], meta, output, tmp, text, body);
    }
  }

  lemma StillNotYetThroughout(f: Fs, trail: seq<Fs>, n: nat, meta: string, output: string, tmp: string, body: string)
    requires NotCompleted(f, meta) && meta != output && meta != tmp
    requires forall k :: n <= k < |trail| ==> OldOrNew(f, trail[k], output, tmp, body)
    ensures forall k :: n <= k < |trail| ==> CompletedIsComplete(trail[k], meta, output, body)
  {
    hide *;
    forall k | n <= k < |trail| ensures CompletedIsComplete(trail[k], meta, output, body) {
      StillNotYet(f, trail[k], meta, output, tmp, body);
    }
  }

  lemma NowCompleteThroughout(f: Fs, trail: seq<Fs>, n: nat, meta: string, output: string, tmp: string, text: string,
                              body: string)
    requires Durable(f, output, body) && meta != output && output != tmp
    requires forall k :: n <= k < |trail| ==> OldOrNew(f, trail[k], meta, tmp, text)
    ensures forall k :: n <= k < |trail| ==> CompletedIsComplete(trail[k], meta, output, body)
  {
    hide *;
    forall k | n <= k < |trail| ensures CompletedIsComplete(trail[k], meta, output, body) {
      NowComplete(f, trail[k], meta, output, tmp, text, body);
    }
  }
}
