/** FilesystemBackend.Put and Delete, call by call, and Put as a run of the
    concurrent file store with nothing else going on. */
module Filesystem {
  import opened Wrappers
  import opened Uris
  import opened Streams
  import opened FileStore

  /** The calls of Put that may fail. AtWrite is a write to the temporary file,
      AtSync is Sync, Close or MkdirAll of the object's directory. */
  datatype Stage = AtStat | AtCreate | AtWrite | AtSync | AtRename | AtRemove

  datatype PutError = InvalidOid | Stopped(stage: Stage) | CopyFailed(cause: ReadError)

  /** What the handler sees of an outcome. */
  function Cause(r: Result<Uri, PutError>): Option<ReadError> {
    match r
    case Ok(_) => None
    case Err(CopyFailed(cause)) => Some(cause)
    case Err(_) => Some(OtherError)
  }

  /** Every name leads to an allocated inode. */
  predicate Tidy(disk: Disk) {
    && (forall p | p in disk.dir :: disk.dir[p] in disk.data)
    && (forall i | i in disk.data :: i < disk.nextInode)
  }

  function Created(disk: Disk, tmp: Path, content: Bytes): Disk {
    disk.(dir := disk.dir[tmp := disk.nextInode], data := disk.data[disk.nextInode := content], nextInode := disk.nextInode + 1)
  }

  function Moved(disk: Disk, tmp: Path, final: Path): Disk
    requires tmp in disk.dir
  {
    disk.(dir := (disk.dir - {tmp})[final := disk.dir[tmp]])
  }

  function CleanedUp(disk: Disk, tmp: Path, failing: Failing): Disk {
    if AtRemove !in failing.stages then Unlinked(disk, tmp)
    else if tmp in disk.dir then disk.(leaked := disk.leaked + {tmp})
    else disk
  }

  /** The calls of one Put that fail, and the number of the write that does, 0
      for none. */
  datatype Failing = Failing(stages: set<Stage>, failedWrite: nat)

  /** A whole Put: the disk it leaves and its outcome. */
  function PutResult(d: Dirs, disk: Disk, oid: Oid, size: int, body: seq<Chunk>, suffix: string, failing: Failing): (Disk, Result<Uri, PutError>)
    requires |oid| >= 4
  {
    var final, tmp := FinalPath(d, oid), TempPath(d, suffix);
    var uri := d.scheme + final;
    if AtStat !in failing.stages && final in disk.dir then (disk, Ok(uri))
    else if AtCreate in failing.stages then (disk, Err(Stopped(AtCreate)))
    else
      var written := Created(disk, tmp, if GetsTo(body, size, failing.failedWrite) then WrittenBefore(body, size, failing.failedWrite) else Delivered(body, size));
      if GetsTo(body, size, failing.failedWrite) then (CleanedUp(written, tmp, failing), Err(Stopped(AtWrite)))
      else if CopyResult(d.sha, body, size, oid).Some? then
        (CleanedUp(written, tmp, failing), Err(CopyFailed(CopyResult(d.sha, body, size, oid).value)))
      else
        if AtSync in failing.stages then (CleanedUp(written, tmp, failing), Err(Stopped(AtSync)))
        else if AtRename in failing.stages then (CleanedUp(written, tmp, failing), Err(Stopped(AtRename)))
        else (CleanedUp(Moved(written, tmp, final), tmp, failing), Ok(uri))
  }

  class FilesystemBackend {
    const dirs: Dirs
    var disk: Disk

    constructor (dirs: Dirs, disk: Disk)
      ensures this.dirs == dirs && this.disk == disk
    {
      this.dirs := dirs;
      this.disk := disk;
    }

    /** Put, reading from the reader chain the upload handler builds. `suffix` is
        what CreateTemp draws: a name that does not exist. */
    method Put<S(!new)>(oid: Oid, reader: Sha256Reader<S>, suffix: string, failing: Failing) returns (r: Result<Uri, PutError>)
      requires Incremental(reader.digest) && dirs.sha == Sha(reader.digest)
      requires reader.r.read == 0 && reader.hasher == reader.digest.init && reader.expected == oid
      requires Digits(suffix) && TempPath(dirs, suffix) !in disk.dir
      modifies this`disk, reader, reader.r, reader.r.r
      ensures |oid| < 4 ==> r == Err(InvalidOid) && disk == old(disk)
      ensures |oid| >= 4 ==>
                (disk, r) == PutResult(dirs, old(disk), oid, reader.r.expected, old(reader.r.r.script), suffix, failing)
    {
      if |oid| < 4 {
        return Err(InvalidOid);
      }
      var final := StoragePath(dirs.root, oid);
      var uri := dirs.scheme + final;
      if AtStat !in failing.stages && final in disk.dir {
        return Ok(uri);
      }
      if AtCreate in failing.stages {
        return Err(Stopped(AtCreate));
      }
      var tmp, inode := TempPath(dirs, suffix), disk.nextInode;
      disk := Created(disk, tmp, []);
      var file := new Sink();
      var err, written := Copy(file, reader, failing.failedWrite);
      disk := disk.(data := disk.data[inode := file.data]);
      assert disk == Created(old(disk), tmp, file.data);
      if !written {
        r := Err(Stopped(AtWrite));
      } else if err.Some? {
        r := Err(CopyFailed(err.value));
      } else if AtSync in failing.stages {
        r := Err(Stopped(AtSync));
      } else if AtRename in failing.stages {
        r := Err(Stopped(AtRename));
      } else {
        disk := Moved(disk, tmp, final);
        r := Ok(uri);
      }
      if AtRemove !in failing.stages {
        disk := Unlinked(disk, tmp);
      } else if tmp in disk.dir {
        disk := disk.(leaked := disk.leaked + {tmp});
      }
    }

    /** Delete: a URI outside the root is refused, a missing file is no error. */
    method Delete(uri: Uri, fails: bool) returns (ok: bool)
      modifies this`disk
      ensures ok <==> PathFromUri(dirs.scheme, dirs.root, uri).Ok? && !fails
      ensures disk == if ok then Unlinked(old(disk), PathFromUri(dirs.scheme, dirs.root, uri).value) else old(disk)
    {
      var path := PathFromUri(dirs.scheme, dirs.root, uri);
      if path.Err? || fails {
        return false;
      }
      disk := Unlinked(disk, path.value);
      ok := true;
    }
  }

  // ------------------------------------------------------------ what a Put means

  predicate Complete(d: Dirs, oid: Oid, size: int, body: seq<Chunk>) {
    Flow(body).1 == Eof && |Flow(body).0| == size && d.sha(Flow(body).0) == oid
  }

  /** A Put succeeds exactly when the file was there, or the whole body came, of
      the declared size and digest, and nothing failed. It then leaves at the
      final path what was there, or the body; otherwise the final path is as it
      was. */
  lemma PutStores(d: Dirs, disk: Disk, oid: Oid, size: int, body: seq<Chunk>, suffix: string, failing: Failing)
    requires ValidOid(oid) && Digits(suffix) && TempPath(d, suffix) !in disk.dir && Tidy(disk)
    ensures var (disk', r) := PutResult(d, disk, oid, size, body, suffix, failing);
            var final := FinalPath(d, oid);
            var found := AtStat !in failing.stages && final in disk.dir;
            && (r.Ok? <==> found || (Complete(d, oid, size, body) && !GetsTo(body, size, failing.failedWrite)
                               && AtCreate !in failing.stages && AtSync !in failing.stages && AtRename !in failing.stages))
            && (r.Ok? && found ==> disk' == disk)
            && (r.Ok? && !found ==> final in disk'.dir && disk'.dir[final] in disk'.data && disk'.data[disk'.dir[final]] == Flow(body).0)
            && (r.Err? ==> (final in disk.dir <==> final in disk'.dir))
            && (r.Err? && final in disk.dir ==> disk'.dir[final] == disk.dir[final])
  {
    CopySucceedsIff(d.sha, body, size, oid);
    TempIsNotFinal(d, suffix, oid);
  }

  /** Whatever the outcome, no temporary file stays unless its removal failed,
      and no other name and no existing file changes. */
  lemma PutFrame(d: Dirs, disk: Disk, oid: Oid, size: int, body: seq<Chunk>, suffix: string, failing: Failing)
    requires ValidOid(oid) && Digits(suffix) && TempPath(d, suffix) !in disk.dir && Tidy(disk)
    ensures var (disk', r) := PutResult(d, disk, oid, size, body, suffix, failing);
            var final, tmp := FinalPath(d, oid), TempPath(d, suffix);
            && (tmp in disk'.dir ==> AtRemove in failing.stages && r.Err? && tmp in disk'.leaked)
            && (forall p | p != final && p != tmp :: p in disk'.dir <==> p in disk.dir)
            && (forall p | p != final && p in disk.dir :: disk'.dir[p] == disk.dir[p])
            && (forall i | i in disk.data :: i in disk'.data && disk'.data[i] == disk.data[i])
  {
    TempIsNotFinal(d, suffix, oid);
  }

  // ------------------------------------------------------------ a Put is a run

  /** How the copy of a Put ends, and what is in its file then. */
  function Copied(d: Dirs, p: Putter, n: nat): (Bytes, Putter)
    requires p.Write?
  {
    if GetsTo(p.body, p.size, n) then (WrittenBefore(p.body, p.size, n), RemoveTemp(p.oid, p.size, p.tmp, Some(OtherError)))
    else
      (Delivered(p.body, p.size),
       match CopyResult(d.sha, p.body, p.size, p.oid)
       case None => Rename(p.oid, p.size, p.body, p.tmp, p.inode)
       case Some(err) => RemoveTemp(p.oid, p.size, p.tmp, Some(err)))
  }

  /** From anywhere in its copy, a writer left alone, whose n-th write fails, gets
      to the outcome of the whole copy. */
  lemma {:induction false} CopyRuns(d: Dirs, s: Store, pid: nat, n: nat, count: nat) returns (events: seq<StoreEvent>)
    requires pid in s.puts && s.puts[pid].Write? && |s.puts[pid].oid| >= 4 && s.puts[pid].inode in s.disk.data
    requires var p := s.puts[pid];
             && Midway(p.body, p.size, s.disk.data[p.inode], p.left)
             && StillAhead(p.body, p.size, n, s.disk.data[p.inode], p.left, count)
    ensures var p := s.puts[pid];
            var (content, p') := Copied(d, p, n);
            StoreRun(d, s, events) == Store(s.disk.(data := s.disk.data[p.inode := content]), s.puts[pid := p'])
    decreases |s.puts[pid].left|
  {
    var p := s.puts[pid];
    var done, c := s.disk.data[p.inode], First(p.left);
    if |c.data| > 0 && count + 1 == n {
      WriteFailsHere(p.body, p.size, n, done, p.left, count);
      assert s.disk.data[p.inode := done] == s.disk.data;
      events := [Go(pid, "", true)];
      StepRuns(d, s, pid, "", true);
    } else if HashChecked(SizeChecked(c, |done + c.data|, p.size), d.sha(done + c.data), p.oid).err.Some? {
      NeverReached(p.body, p.size, n, done, p.left, count);
      LastWrite(d, s, pid);
      events := [Go(pid, "", false)];
    } else {
      CopyGoesOn(p.body, p.size, done, p.left);
      AheadGoesOn(p.body, p.size, n, done, p.left, count);
      NextWrite(d, s, pid);
      var t := StoreRun(d, s, [Go(pid, "", false)]);
      var rest := CopyRuns(d, t, pid, n, if |c.data| > 0 then count + 1 else count);
      StoreRunAppend(d, s, [Go(pid, "", false)], rest);
      events := [Go(pid, "", false)] + rest;
    }
  }

  /** The chunk whose error ends the copy. */
  lemma LastWrite(d: Dirs, s: Store, pid: nat)
    requires pid in s.puts && s.puts[pid].Write? && |s.puts[pid].oid| >= 4 && s.puts[pid].inode in s.disk.data
    requires var p := s.puts[pid]; Midway(p.body, p.size, s.disk.data[p.inode], p.left)
    requires var p := s.puts[pid];
             var data := s.disk.data[p.inode] + First(p.left).data;
             HashChecked(SizeChecked(First(p.left), |data|, p.size), d.sha(data), p.oid).err.Some?
    ensures var p := s.puts[pid];
            StoreRun(d, s, [Go(pid, "", false)]) ==
            Store(s.disk.(data := s.disk.data[p.inode := Delivered(p.body, p.size)]),
                  s.puts[pid := match CopyResult(d.sha, p.body, p.size, p.oid)
                                case None => Rename(p.oid, p.size, p.body, p.tmp, p.inode)
                                case Some(err) => RemoveTemp(p.oid, p.size, p.tmp, Some(err))])
  {
    var p := s.puts[pid];
    var done, data := s.disk.data[p.inode], s.disk.data[p.inode] + First(p.left).data;
    CopyStops(d.sha, p.body, p.size, p.oid, done, p.left, HashChecked(SizeChecked(First(p.left), |data|, p.size), d.sha(data), p.oid));
    StepRuns(d, s, pid, "", false);
  }

  /** A chunk after which the copy goes on. */
  lemma NextWrite(d: Dirs, s: Store, pid: nat)
    requires pid in s.puts && s.puts[pid].Write? && |s.puts[pid].oid| >= 4 && s.puts[pid].inode in s.disk.data
    requires var p := s.puts[pid];
             var data := s.disk.data[p.inode] + First(p.left).data;
             HashChecked(SizeChecked(First(p.left), |data|, p.size), d.sha(data), p.oid).err.None?
    ensures var p := s.puts[pid];
            StoreRun(d, s, [Go(pid, "", false)]) ==
            Store(s.disk.(data := s.disk.data[p.inode := s.disk.data[p.inode] + First(p.left).data]), s.puts[pid := p.(left := Rest(p.left))])
  {
    StepRuns(d, s, pid, "", false);
  }

  lemma StepRuns(d: Dirs, s: Store, pid: nat, suffix: string, fails: bool)
    requires Runnable(s, pid)
    ensures StoreRun(d, s, [Go(pid, suffix, fails)]) == After(s, pid, PutterStep(d, s.disk, s.puts[pid], suffix, fails))
  {
    assert [Go(pid, suffix, fails)][1..] == [];
  }

  /** A finished or failed copy: rename it if it is whole, and clean up. */
  lemma EndRuns(d: Dirs, s: Store, pid: nat, failing: Failing) returns (events: seq<StoreEvent>)
    requires pid in s.puts && |s.puts[pid].oid| >= 4 && (s.puts[pid].Rename? || s.puts[pid].RemoveTemp?)
    requires s.puts[pid].Rename? ==> s.puts[pid].tmp in s.disk.dir
    ensures var p := s.puts[pid];
            var renamed := p.Rename? && AtSync !in failing.stages && AtRename !in failing.stages;
            StoreRun(d, s, events) ==
            Store(CleanedUp(if renamed then Moved(s.disk, p.tmp, FinalPath(d, p.oid)) else s.disk, p.tmp, failing),
                  s.puts[pid := Returned(p.oid, p.size, if renamed then None else if p.Rename? then Some(OtherError) else p.result)])
  {
    var p, fails := s.puts[pid], AtSync in failing.stages || AtRename in failing.stages;
    var last := [Go(pid, "", AtRemove in failing.stages)];
    if p.Rename? {
      var first := [Go(pid, "", fails)];
      StepRuns(d, s, pid, "", fails);
      var t := StoreRun(d, s, first);
      if !fails {
        assert t.disk == Moved(s.disk, p.tmp, FinalPath(d, p.oid));
      }
      StepRuns(d, t, pid, "", AtRemove in failing.stages);
      StoreRunAppend(d, s, first, last);
      events := first + last;
    } else {
      StepRuns(d, s, pid, "", AtRemove in failing.stages);
      events := last;
    }
  }

  /** The writer a Put becomes when it has no file yet and gets a temporary one. */
  function Writer(d: Dirs, disk: Disk, p: Putter, suffix: string): Putter
    requires p.Stat?
  {
    Write(p.oid, p.size, p.body, p.body, TempPath(d, suffix), disk.nextInode)
  }

  lemma OpenRuns(d: Dirs, s: Store, pid: nat, suffix: string, failing: Failing) returns (events: seq<StoreEvent>)
    requires pid in s.puts && s.puts[pid].Stat? && |s.puts[pid].oid| >= 4
    requires Digits(suffix) && TempPath(d, suffix) !in s.disk.dir
    ensures var p, t := s.puts[pid], StoreRun(d, s, events);
            if AtStat !in failing.stages && FinalPath(d, p.oid) in s.disk.dir
            then t == After(s, pid, (s.disk, Returned(p.oid, p.size, None)))
            else if AtCreate in failing.stages
            then t == After(s, pid, (s.disk, Returned(p.oid, p.size, Some(OtherError))))
            else t == After(s, pid, (Created(s.disk, TempPath(d, suffix), []), Writer(d, s.disk, p, suffix)))
  {
    var first, second := [Go(pid, "", AtStat in failing.stages)], [Go(pid, suffix, AtCreate in failing.stages)];
    StepRuns(d, s, pid, "", AtStat in failing.stages);
    var s1 := StoreRun(d, s, first);
    events := first;
    if !s1.puts[pid].Returned? {
      StepRuns(d, s1, pid, suffix, AtCreate in failing.stages);
      StoreRunAppend(d, s, first, second);
      events := first + second;
    }
  }

  /** The imperative Put does what the concurrent file store does when nothing
      else runs: there is a run from its Stat to its return with the same disk
      and the same outcome. */
  lemma PutIsARun(d: Dirs, s: Store, pid: nat, suffix: string, failing: Failing) returns (events: seq<StoreEvent>)
    requires pid in s.puts && s.puts[pid].Stat? && |s.puts[pid].oid| >= 4
    requires Digits(suffix) && TempPath(d, suffix) !in s.disk.dir
    ensures var p := s.puts[pid];
            var (disk', r) := PutResult(d, s.disk, p.oid, p.size, p.body, suffix, failing);
            StoreRun(d, s, events) == Store(disk', s.puts[pid := Returned(p.oid, p.size, Cause(r))])
  {
    var p := s.puts[pid];
    events := OpenRuns(d, s, pid, suffix, failing);
    var t := StoreRun(d, s, events);
    if t.puts[pid].Write? {
      var rest := WriterRuns(d, t, pid, failing);
      StoreRunAppend(d, s, events, rest);
      events := events + rest;
      var content := Copied(d, t.puts[pid], failing.failedWrite).0;
      assert t.disk.(data := t.disk.data[s.disk.nextInode := content]) == Created(s.disk, TempPath(d, suffix), content);
    }
  }

  /** A writer that has written nothing, to the end. */
  lemma WriterRuns(d: Dirs, s: Store, pid: nat, failing: Failing) returns (events: seq<StoreEvent>)
    requires pid in s.puts && s.puts[pid].Write? && |s.puts[pid].oid| >= 4 && s.puts[pid].left == s.puts[pid].body
    requires s.puts[pid].tmp in s.disk.dir && s.puts[pid].inode in s.disk.data && s.disk.data[s.puts[pid].inode] == []
    ensures var p := s.puts[pid];
            var (content, q) := Copied(d, p, failing.failedWrite);
            var written := s.disk.(data := s.disk.data[p.inode := content]);
            var renamed := q.Rename? && AtSync !in failing.stages && AtRename !in failing.stages;
            StoreRun(d, s, events) ==
            Store(CleanedUp(if renamed then Moved(written, p.tmp, FinalPath(d, p.oid)) else written, p.tmp, failing),
                  s.puts[pid := Returned(p.oid, p.size, if renamed then None else if q.Rename? then Some(OtherError) else q.result)])
  {
    var p := s.puts[pid];
    CopyStarts(p.body, p.size);
    AheadStarts(p.body, p.size, failing.failedWrite);
    var copy := CopyRuns(d, s, pid, failing.failedWrite, 0);
    var t := StoreRun(d, s, copy);
    var end := EndRuns(d, t, pid, failing);
    StoreRunAppend(d, s, copy, end);
    events := copy + end;
  }
}
