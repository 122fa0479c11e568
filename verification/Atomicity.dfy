/** The server over its real file system. Put is several calls there, with a
    temporary file, and any number of them run besides everything else; this
    says that each call looks to the server like nothing or like one of its two
    atomic steps of Put, so every joint run is one of the server's runs. */
module Atomicity {
  import opened Wrappers
  import opened Strings
  import opened Uris
  import opened Tables
  import opened Streams
  import opened Lifecycle
  import opened Safety
  import opened Steps
  import opened Guarantees
  import opened FileStore

  ghost predicate Matches(cfg: Config, b: Backend, d: Dirs) {
    b.Filesystem? && b.root == d.root && cfg.sha == d.sha
  }

  /** The final files of a disk are the objects of the backend. */
  ghost predicate SameFiles(b: Backend, d: Dirs, disk: Disk, store: map<Uri, Bytes>) {
    forall oid | ValidOid(oid) ::
      && (FinalPath(d, oid) in disk.dir <==> UriOf(b, oid) in store)
      && (FinalPath(d, oid) in disk.dir ==> SameBytes(disk, FinalPath(d, oid), store, UriOf(b, oid)))
  }

  predicate SameBytes(disk: Disk, p: Path, store: map<Uri, Bytes>, u: Uri)
    requires p in disk.dir
  {
    disk.dir[p] in disk.data && u in store && store[u] == disk.data[disk.dir[p]]
  }

  /** The atomic request behind a Put: while the temporary file is written it is
      still about to copy; once the file is in place it is about to link. */
  function Seen(b: Backend, repo: string, p: Putter): Proc
    requires |p.oid| >= 4
  {
    match p
    case Stat(oid, size, body) => PutStat(repo, b, oid, size, body)
    case CreateTemp(oid, size, body) => PutCopy(repo, b, oid, size, body)
    case Write(oid, size, body, _, _, _) => PutCopy(repo, b, oid, size, body)
    case Rename(oid, size, body, _, _) => PutCopy(repo, b, oid, size, body)
    case RemoveTemp(oid, size, _, result) => SeenResult(b, repo, oid, size, result)
    case Returned(oid, size, result) => SeenResult(b, repo, oid, size, result)
  }

  function SeenResult(b: Backend, repo: string, oid: Oid, size: int, result: Option<ReadError>): Proc
    requires |oid| >= 4
  {
    match result
    case None => PutLink(repo, oid, size, UriOf(b, oid))
    case Some(err) => Finished(Code(CopyStatus(err)))
  }

  /** PutStep of the server's state machine, on the store alone. */
  function Moved(cfg: Config, store: map<Uri, Bytes>, p: Proc, c: Choice): (map<Uri, Bytes>, Proc)
    requires (p.PutStat? || p.PutCopy?) && |p.oid| >= 4
  {
    var (w, p') := PutStep(cfg, World(EMPTY, store, {}), p, c);
    (w.store, p')
  }

  const FAULTY: Choice := Choice(0, Fails, [], {})
  const SMOOTH: Choice := Choice(0, NoFault, [], {})

  // ------------------------------------------------------------ one Put

  /** What a step of one Put looks like: nothing, or one atomic step of its
      request with the same effect on the files. */
  ghost predicate LooksAtomic(cfg: Config, b: Backend, d: Dirs, repo: string, store: map<Uri, Bytes>, p: Putter, r: (Disk, Putter), step: Option<Choice>)
    requires |p.oid| >= 4
  {
    && |r.1.oid| >= 4
    && match step
       case None => SameFiles(b, d, r.0, store) && Seen(b, repo, r.1) == Seen(b, repo, p)
       case Some(c) =>
         var q := Seen(b, repo, p);
         (q.PutStat? || q.PutCopy?) && SameFiles(b, d, r.0, Moved(cfg, store, q, c).0) && Seen(b, repo, r.1) == Moved(cfg, store, q, c).1
  }

  lemma StatLooksAtomic(cfg: Config, b: Backend, d: Dirs, repo: string, store: map<Uri, Bytes>, disk: Disk, p: Putter, suffix: string, fails: bool)
    requires Matches(cfg, b, d) && SameFiles(b, d, disk, store) && p.Stat? && ValidOid(p.oid)
    ensures LooksAtomic(cfg, b, d, repo, store, p, PutterStep(d, disk, p, suffix, fails), Some(if fails then FAULTY else SMOOTH))
  {
    assert FinalPath(d, p.oid) in disk.dir <==> UriOf(b, p.oid) in store;
  }

  lemma CreateLooksAtomic(cfg: Config, b: Backend, d: Dirs, repo: string, store: map<Uri, Bytes>, disk: Disk, p: Putter, suffix: string, fails: bool)
    requires Matches(cfg, b, d) && SameFiles(b, d, disk, store) && p.CreateTemp? && ValidOid(p.oid) && disk.nextInode !in disk.data
    ensures LooksAtomic(cfg, b, d, repo, store, p, CreateStep(d, disk, p, suffix, fails), if fails then Some(FAULTY) else None)
  {
    var disk' := CreateStep(d, disk, p, suffix, fails).0;
    forall oid | ValidOid(oid)
      ensures FinalPath(d, oid) in disk'.dir <==> UriOf(b, oid) in store
      ensures FinalPath(d, oid) in disk'.dir ==> SameBytes(disk', FinalPath(d, oid), store, UriOf(b, oid))
    {
      if Digits(suffix) { TempIsNotFinal(d, suffix, oid); }
    }
  }

  /** The file being written is under no final name. */
  ghost predicate WritesHidden(d: Dirs, disk: Disk, p: Putter)
    requires p.Write?
  {
    forall oid | ValidOid(oid) && FinalPath(d, oid) in disk.dir :: disk.dir[FinalPath(d, oid)] != p.inode
  }

  lemma WriterIsHidden(d: Dirs, s: Store, pid: nat)
    requires Hidden(d, s) && pid in s.puts && s.puts[pid].Write?
    ensures WritesHidden(d, s.disk, s.puts[pid])
  {
    forall oid | ValidOid(oid) && FinalPath(d, oid) in s.disk.dir
      ensures s.disk.dir[FinalPath(d, oid)] != s.puts[pid].inode
    {
      FinalIsFinal(d, oid);
      assert !FileIs(s.disk, FinalPath(d, oid), s.puts[pid].inode);
    }
  }

  lemma WriteSeen(b: Backend, d: Dirs, repo: string, disk: Disk, p: Putter, fails: bool)
    requires p.Write? && PutterOk(d, disk, p)
    ensures var p' := WriteStep(d, disk, p, fails).1;
            && |p'.oid| >= 4
            && (Seen(b, repo, p') == Seen(b, repo, p)
                || (fails && Seen(b, repo, p') == Finished(Code(500)))
                || (!fails && CopyResult(d.sha, p.body, p.size, p.oid).Some?
                    && Seen(b, repo, p') == Finished(Code(CopyStatus(CopyResult(d.sha, p.body, p.size, p.oid).value)))))
  {
    var done := disk.data[p.inode];
    var content := done + First(p.left).data;
    var c := HashChecked(SizeChecked(First(p.left), |content|, p.size), d.sha(content), p.oid);
    if c.err.Some? {
      CopyStops(d.sha, p.body, p.size, p.oid, done, p.left, c);
    }
  }

  lemma WrittenFiles(b: Backend, d: Dirs, disk: Disk, disk': Disk, p: Putter, store: map<Uri, Bytes>)
    requires p.Write? && WritesHidden(d, disk, p) && OnlyInode(disk, disk', p.inode) && SameFiles(b, d, disk, store)
    ensures SameFiles(b, d, disk', store)
  {
    forall oid | ValidOid(oid)
      ensures FinalPath(d, oid) in disk'.dir <==> UriOf(b, oid) in store
      ensures FinalPath(d, oid) in disk'.dir ==> SameBytes(disk', FinalPath(d, oid), store, UriOf(b, oid))
    {
      assert FinalPath(d, oid) in disk.dir ==> SameBytes(disk, FinalPath(d, oid), store, UriOf(b, oid));
    }
  }

  /** A write that ends the copy with an error is the whole copy failing with
      that error. */
  lemma WriteFailsAtomic(cfg: Config, b: Backend, d: Dirs, repo: string, store: map<Uri, Bytes>, disk: Disk, p: Putter, fails: bool)
    requires Matches(cfg, b, d) && p.Write? && PutterOk(d, disk, p) && WriteStep(d, disk, p, fails).1.RemoveTemp?
    ensures Seen(b, repo, WriteStep(d, disk, p, fails).1) == Moved(cfg, store, Seen(b, repo, p), if fails then FAULTY else SMOOTH).1
    ensures Moved(cfg, store, Seen(b, repo, p), if fails then FAULTY else SMOOTH).0 == store
  {
    WriteSeen(b, d, repo, disk, p, fails);
  }

  /** A chunk written is not seen, nor is the end of the stream. */
  lemma WriteUnseen(b: Backend, d: Dirs, repo: string, disk: Disk, p: Putter, fails: bool)
    requires p.Write? && PutterOk(d, disk, p) && !WriteStep(d, disk, p, fails).1.RemoveTemp?
    ensures Seen(b, repo, WriteStep(d, disk, p, fails).1) == Seen(b, repo, p)
  {}

  lemma WriteLooksAtomic(cfg: Config, b: Backend, d: Dirs, repo: string, store: map<Uri, Bytes>, disk: Disk, p: Putter, fails: bool)
    requires Matches(cfg, b, d) && SameFiles(b, d, disk, store) && p.Write? && PutterOk(d, disk, p) && WritesHidden(d, disk, p)
    ensures LooksAtomic(cfg, b, d, repo, store, p, WriteStep(d, disk, p, fails),
                        if WriteStep(d, disk, p, fails).1.RemoveTemp? then Some(if fails then FAULTY else SMOOTH) else None)
  {
    var (disk', p') := WriteStep(d, disk, p, fails);
    WriteShape(d, disk, p, fails);
    WrittenFiles(b, d, disk, disk', p, store);
    if p'.RemoveTemp? {
      WriteFailsAtomic(cfg, b, d, repo, store, disk, p, fails);
    } else {
      WriteUnseen(b, d, repo, disk, p, fails);
    }
  }

  lemma RenamedFiles(b: Backend, d: Dirs, disk: Disk, tmp: Path, oid: Oid, store: map<Uri, Bytes>)
    requires b.Filesystem? && b.root == d.root && ValidOid(oid) && SameFiles(b, d, disk, store)
    requires tmp in disk.dir && disk.dir[tmp] in disk.data && !IsFinal(d, tmp)
    ensures var disk' := Unlinked(disk, tmp).(dir := Unlinked(disk, tmp).dir[FinalPath(d, oid) := disk.dir[tmp]]);
            SameFiles(b, d, disk', store[UriOf(b, oid) := disk.data[disk.dir[tmp]]])
  {
    var disk' := Unlinked(disk, tmp).(dir := Unlinked(disk, tmp).dir[FinalPath(d, oid) := disk.dir[tmp]]);
    var store' := store[UriOf(b, oid) := disk.data[disk.dir[tmp]]];
    forall other | ValidOid(other)
      ensures FinalPath(d, other) in disk'.dir <==> UriOf(b, other) in store'
      ensures FinalPath(d, other) in disk'.dir ==> SameBytes(disk', FinalPath(d, other), store', UriOf(b, other))
    {
      FinalIsFinal(d, other);
      if other != oid {
        if FinalPath(d, other) == FinalPath(d, oid) { FinalDeterminesOid(d, other, oid); }
        if UriOf(b, other) == UriOf(b, oid) { UriDeterminesOid(b, other, b, oid); }
        assert FinalPath(d, other) in disk.dir ==> SameBytes(disk, FinalPath(d, other), store, UriOf(b, other));
      }
    }
  }

  /** The rename is the moment the whole copy takes effect. If the temporary
      name is gone the copy has failed. */
  lemma RenameLooksAtomic(cfg: Config, b: Backend, d: Dirs, repo: string, store: map<Uri, Bytes>, disk: Disk, p: Putter, fails: bool)
    requires Matches(cfg, b, d) && SameFiles(b, d, disk, store) && p.Rename? && PutterOk(d, disk, p)
    requires p.tmp in disk.dir ==> disk.dir[p.tmp] == p.inode
    ensures LooksAtomic(cfg, b, d, repo, store, p, RenameStep(d, disk, p, fails), Some(if fails || p.tmp !in disk.dir then FAULTY else SMOOTH))
  {
    if !fails && p.tmp in disk.dir {
      RenamedFiles(b, d, disk, p.tmp, p.oid, store);
    }
  }

  lemma UnlinkedFiles(b: Backend, d: Dirs, disk: Disk, p: Path, store: map<Uri, Bytes>)
    requires SameFiles(b, d, disk, store) && !IsFinal(d, p)
    ensures SameFiles(b, d, Unlinked(disk, p), store)
  {
    var disk' := Unlinked(disk, p);
    forall oid | ValidOid(oid)
      ensures FinalPath(d, oid) in disk'.dir <==> UriOf(b, oid) in store
      ensures FinalPath(d, oid) in disk'.dir ==> SameBytes(disk', FinalPath(d, oid), store, UriOf(b, oid))
    {
      FinalIsFinal(d, oid);
      assert FinalPath(d, oid) in disk.dir ==> SameBytes(disk, FinalPath(d, oid), store, UriOf(b, oid));
    }
  }

  /** After the rename or a failure, nothing more is seen of a Put. */
  lemma RemoveLooksAtomic(cfg: Config, b: Backend, d: Dirs, repo: string, store: map<Uri, Bytes>, disk: Disk, p: Putter, suffix: string, fails: bool)
    requires SameFiles(b, d, disk, store) && p.RemoveTemp? && PutterOk(d, disk, p)
    ensures LooksAtomic(cfg, b, d, repo, store, p, PutterStep(d, disk, p, suffix, fails), None)
  {
    UnlinkedFiles(b, d, disk, p.tmp, store);
    assert SameFiles(b, d, disk.(leaked := disk.leaked + {p.tmp}), store);
  }

  /** The atomic step behind a call of Put, if it is one. */
  function AtomOf(d: Dirs, disk: Disk, p: Putter, suffix: string, fails: bool): Option<Choice>
    requires |p.oid| >= 4 && (p.Write? ==> p.inode in disk.data)
  {
    match p
    case Stat(_, _, _) => Some(if fails then FAULTY else SMOOTH)
    case CreateTemp(_, _, _) => if fails then Some(FAULTY) else None
    case Write(_, _, _, _, _, _) =>
      if WriteStep(d, disk, p, fails).1.RemoveTemp? then Some(if fails then FAULTY else SMOOTH) else None
    case Rename(_, _, _, tmp, _) => Some(if fails || tmp !in disk.dir then FAULTY else SMOOTH)
    case _ => None
  }

  /** Each call inside Put looks like nothing or like one atomic step. */
  lemma PutterLooksAtomic(cfg: Config, b: Backend, d: Dirs, repo: string, store: map<Uri, Bytes>, s: Store, pid: nat, suffix: string, fails: bool)
    requires Matches(cfg, b, d) && SameFiles(b, d, s.disk, store) && StoreOk(d, s) && Hidden(d, s) && pid in s.puts
    requires !Stolen(s, Go(pid, suffix, fails))
    ensures Runnable(s, pid)
    ensures LooksAtomic(cfg, b, d, repo, store, s.puts[pid], PutterStep(d, s.disk, s.puts[pid], suffix, fails), AtomOf(d, s.disk, s.puts[pid], suffix, fails))
  {
    var p := s.puts[pid];
    assert PutterOk(d, s.disk, p);
    match p
    case Stat(_, _, _) => StatLooksAtomic(cfg, b, d, repo, store, s.disk, p, suffix, fails);
    case CreateTemp(_, _, _) => CreateLooksAtomic(cfg, b, d, repo, store, s.disk, p, suffix, fails);
    case Write(_, _, _, _, _, _) =>
      WriterIsHidden(d, s, pid);
      WriteLooksAtomic(cfg, b, d, repo, store, s.disk, p, fails);
    case Rename(_, _, _, _, _) =>
      if fails && p.tmp in s.disk.dir && s.disk.dir[p.tmp] != p.inode {
        FailedRenameLooksAtomic(cfg, b, d, repo, store, s.disk, p);
      } else {
        RenameLooksAtomic(cfg, b, d, repo, store, s.disk, p, fails);
      }
    case RemoveTemp(_, _, _, _) => RemoveLooksAtomic(cfg, b, d, repo, store, s.disk, p, suffix, fails);
    case Returned(_, _, _) =>
  }

  lemma FailedRenameLooksAtomic(cfg: Config, b: Backend, d: Dirs, repo: string, store: map<Uri, Bytes>, disk: Disk, p: Putter)
    requires SameFiles(b, d, disk, store) && p.Rename? && PutterOk(d, disk, p)
    ensures LooksAtomic(cfg, b, d, repo, store, p, RenameStep(d, disk, p, true), Some(FAULTY))
  {}

  lemma RemovedFiles(b: Backend, d: Dirs, disk: Disk, oid: Oid, store: map<Uri, Bytes>)
    requires b.Filesystem? && b.root == d.root && ValidOid(oid) && SameFiles(b, d, disk, store)
    ensures SameFiles(b, d, Unlinked(disk, FinalPath(d, oid)), Removed(store, UriOf(b, oid)))
  {
    var disk', store' := Unlinked(disk, FinalPath(d, oid)), Removed(store, UriOf(b, oid));
    forall other | ValidOid(other)
      ensures FinalPath(d, other) in disk'.dir <==> UriOf(b, other) in store'
      ensures FinalPath(d, other) in disk'.dir ==> SameBytes(disk', FinalPath(d, other), store', UriOf(b, other))
    {
      assert FinalPath(d, other) in disk.dir ==> SameBytes(disk, FinalPath(d, other), store, UriOf(b, other));
      if FinalPath(d, other) == FinalPath(d, oid) { FinalDeterminesOid(d, other, oid); }
      if UriOf(b, other) == UriOf(b, oid) { UriDeterminesOid(b, other, b, oid); }
    }
  }

  // ------------------------------------------------------------ the server on its disk

  /** The file system of one backend and the server, whose store has that
      backend's files and the objects of all others. */
  datatype Site = Site(files: Store, server: State)

  /** A call inside a Put of that backend, or any other event of the server. */
  datatype Joint =
    | OnDisk(pid: nat, suffix: string, fails: bool)
    | InServer(event: Event)

  predicate StillPutting(s: Store, pid: nat) {
    pid in s.puts && !s.puts[pid].Returned?
  }

  /** What an event of the server does on the disk of backend b. */
  function OnFiles(cfg: Config, b: Backend, d: Dirs, x: Site, e: Event): Store {
    match e
    case Arrive(pid, request) =>
      var p := Admit(cfg, request);
      if pid in x.server.procs || !p.PutStat? || p.b != b then x.files else StoreNext(d, x.files, Begin(pid, p.oid, p.size, p.body))
    case Crash(pid) => StoreNext(d, x.files, Die(pid))
    case Advance(pid, c) =>
      if pid in x.server.procs && LosesFile(b, x.server.procs[pid], c) then StoreNext(d, x.files, Unlink(x.server.procs[pid].oid)) else x.files
    case ClientPut(_, _) => x.files
  }

  predicate LosesFile(b: Backend, p: Proc, c: Choice) {
    p.LoserDelete? && ValidOid(p.oid) && c.fault != Fails && p.uri == UriOf(b, p.oid)
  }

  /** A Put still running moves on disk; everything else moves in the server. */
  ghost function JointNext(cfg: Config, b: Backend, d: Dirs, x: Site, j: Joint): Site {
    match j
    case OnDisk(pid, suffix, fails) =>
      if !Runnable(x.files, pid) then x
      else
        Site(StoreNext(d, x.files, Go(pid, suffix, fails)),
             match AtomOf(d, x.files.disk, x.files.puts[pid], suffix, fails)
             case None => x.server
             case Some(c) => Lifecycle.Next(cfg, x.server, Advance(pid, c)))
    case InServer(e) =>
      if e.Advance? && StillPutting(x.files, e.pid) then x
      else Site(OnFiles(cfg, b, d, x, e), Lifecycle.Next(cfg, x.server, e))
  }

  ghost function JointRun(cfg: Config, b: Backend, d: Dirs, x: Site, joint: seq<Joint>): Site
    decreases |joint|
  {
    if joint == [] then x else JointRun(cfg, b, d, JointNext(cfg, b, d, x, joint[0]), joint[1..])
  }

  /** No rename of the run moves another Put's file. */
  ghost predicate NoTheft(cfg: Config, b: Backend, d: Dirs, x: Site, joint: seq<Joint>)
    decreases |joint|
  {
    joint == [] ||
    (&& !(joint[0].OnDisk? && Stolen(x.files, Go(joint[0].pid, joint[0].suffix, joint[0].fails)))
     && NoTheft(cfg, b, d, JointNext(cfg, b, d, x, joint[0]), joint[1..]))
  }

  /** A running Put is known to the server as the request it looks like. */
  ghost predicate Known(b: Backend, p: Putter, q: Proc) {
    |p.oid| >= 4 && exists repo :: q == Seen(b, repo, p)
  }

  predicate PutsOn(b: Backend, q: Proc) {
    (q.PutStat? || q.PutCopy?) && q.b == b
  }

  ghost predicate SameRequests(b: Backend, s: Store, procs: map<nat, Proc>) {
    && (forall pid | pid in s.puts :: pid in procs && (!s.puts[pid].Returned? ==> Known(b, s.puts[pid], procs[pid])))
    && (forall pid | pid in procs && PutsOn(b, procs[pid]) :: StillPutting(s, pid))
  }

  ghost predicate Coupled(cfg: Config, b: Backend, d: Dirs, x: Site) {
    && Inv(cfg, x.server) && StoreOk(d, x.files) && Hidden(d, x.files) && Whole(d, x.files.disk)
    && SameFiles(b, d, x.files.disk, x.server.world.store)
    && SameRequests(b, x.files, x.server.procs)
  }

  // ------------------------------------------------------------ calls on disk

  /** One atomic step is one event of the server. */
  lemma MoveIsAnEvent(cfg: Config, t: State, pid: nat, c: Choice)
    requires pid in t.procs && (t.procs[pid].PutStat? || t.procs[pid].PutCopy?) && Shaped(t.procs[pid])
    ensures var (store, q) := Moved(cfg, t.world.store, t.procs[pid], c);
            Lifecycle.Next(cfg, t, Advance(pid, c)) == State(t.world.(store := store), t.procs[pid := q])
  {}

  lemma RequestMoves(b: Backend, repo: string, s: Store, procs: map<nat, Proc>, pid: nat, disk': Disk, p': Putter)
    requires SameRequests(b, s, procs) && StillPutting(s, pid) && |p'.oid| >= 4
    ensures SameRequests(b, After(s, pid, (disk', p')), procs[pid := Seen(b, repo, p')])
  {
    var t, procs' := After(s, pid, (disk', p')), procs[pid := Seen(b, repo, p')];
    forall q | q in t.puts ensures q in procs' && (!t.puts[q].Returned? ==> Known(b, t.puts[q], procs'[q])) {
      if q == pid { assert procs'[q] == Seen(b, repo, t.puts[q]); }
    }
  }

  lemma DiskStepMeans(cfg: Config, b: Backend, d: Dirs, x: Site, pid: nat, suffix: string, fails: bool, repo: string)
    requires StillPutting(x.files, pid) && Runnable(x.files, pid) && pid in x.server.procs && Shaped(x.server.procs[pid])
    requires x.server.procs[pid] == Seen(b, repo, x.files.puts[pid])
    requires LooksAtomic(cfg, b, d, repo, x.server.world.store, x.files.puts[pid],
                         PutterStep(d, x.files.disk, x.files.puts[pid], suffix, fails), AtomOf(d, x.files.disk, x.files.puts[pid], suffix, fails))
    ensures var (disk', p') := PutterStep(d, x.files.disk, x.files.puts[pid], suffix, fails);
            var x' := JointNext(cfg, b, d, x, OnDisk(pid, suffix, fails));
            && x'.files == After(x.files, pid, (disk', p')) && |p'.oid| >= 4
            && SameFiles(b, d, disk', x'.server.world.store)
            && x'.server.procs == x.server.procs[pid := Seen(b, repo, p')]
  {
    var choice := AtomOf(d, x.files.disk, x.files.puts[pid], suffix, fails);
    if choice.Some? {
      MoveIsAnEvent(cfg, x.server, pid, choice.value);
    } else {
      assert x.server.procs[pid := x.server.procs[pid]] == x.server.procs;
    }
  }

  lemma DiskKeepsCoupling(cfg: Config, b: Backend, d: Dirs, x: Site, pid: nat, suffix: string, fails: bool)
    requires GoodConfig(cfg) && Matches(cfg, b, d) && Coupled(cfg, b, d, x) && StillPutting(x.files, pid)
    requires !Stolen(x.files, Go(pid, suffix, fails))
    ensures SameFiles(b, d, JointNext(cfg, b, d, x, OnDisk(pid, suffix, fails)).files.disk,
                      JointNext(cfg, b, d, x, OnDisk(pid, suffix, fails)).server.world.store)
    ensures SameRequests(b, JointNext(cfg, b, d, x, OnDisk(pid, suffix, fails)).files,
                         JointNext(cfg, b, d, x, OnDisk(pid, suffix, fails)).server.procs)
  {
    assert Known(b, x.files.puts[pid], x.server.procs[pid]);
    var repo :| x.server.procs[pid] == Seen(b, repo, x.files.puts[pid]);
    assert ProcOk(cfg, x.server.world, x.server.procs[pid]);
    PutterLooksAtomic(cfg, b, d, repo, x.server.world.store, x.files, pid, suffix, fails);
    DiskStepMeans(cfg, b, d, x, pid, suffix, fails, repo);
    var (disk', p') := PutterStep(d, x.files.disk, x.files.puts[pid], suffix, fails);
    RequestMoves(b, repo, x.files, x.server.procs, pid, disk', p');
  }

  // ------------------------------------------------------------ events of the server

  /** Two well-formed filesystem backends never share a file name. */
  lemma OneBackendOwnsFile(b: Backend, c: Backend, oid: Oid, other: Oid)
    requires b.Filesystem? && c.Filesystem? && WellFormed(b) && WellFormed(c)
    requires ValidOid(oid) && ValidOid(other) && UriOf(b, oid) == UriOf(c, other)
    ensures b == c && oid == other
  {
    UriDeterminesOid(b, oid, c, other);
    var u, v := UriOf(b, oid), UriOf(c, oid);
    assert HasPrefix(u, b.scheme) && HasPrefix(v, c.scheme);
    OneSchemeOwnsUri(b.scheme, c.scheme, u);
    var p, q := u[|b.scheme|..], v[|c.scheme|..];
    assert p == StoragePath(b.root, oid) && q == StoragePath(c.root, oid);
    assert p[..|p| - 71] == b.root && q[..|q| - 71] == c.root;
  }

  /** Changing objects other than this backend's changes nothing on its disk. */
  lemma OthersFiles(b: Backend, d: Dirs, disk: Disk, store: map<Uri, Bytes>, store': map<Uri, Bytes>, uri: Uri)
    requires SameFiles(b, d, disk, store)
    requires forall u | u != uri :: (u in store' <==> u in store) && (u in store ==> store'[u] == store[u])
    requires forall oid | ValidOid(oid) :: UriOf(b, oid) != uri
    ensures SameFiles(b, d, disk, store')
  {
    forall oid | ValidOid(oid)
      ensures FinalPath(d, oid) in disk.dir <==> UriOf(b, oid) in store'
      ensures FinalPath(d, oid) in disk.dir ==> SameBytes(disk, FinalPath(d, oid), store', UriOf(b, oid))
    {
      assert FinalPath(d, oid) in disk.dir ==> SameBytes(disk, FinalPath(d, oid), store, UriOf(b, oid));
    }
  }

  lemma BucketIsNotFile(cfg: Config, b: Backend, uri: Uri)
    requires GoodConfig(cfg) && b in cfg.backends.Values && b.Filesystem? && BucketName(cfg, uri)
    ensures forall oid | ValidOid(oid) :: UriOf(b, oid) != uri
  {
    forall oid | ValidOid(oid) ensures UriOf(b, oid) != uri {
      NamedUri(cfg, b, oid);
      NeverBoth(cfg, uri);
    }
  }

  /** Steps that leave the store alone. */
  lemma StoreUntouched(cfg: Config, w: World, p: Proc, c: Choice)
    requires Shaped(p) && !p.PutCopy? && !p.LoserDelete? && !p.SweepDelete?
    ensures Act(cfg, w, p, c).0.store == w.store
  {}

  lemma NoNewPut(cfg: Config, w: World, b: Backend, p: Proc, c: Choice)
    requires Shaped(p) && !PutsOn(b, p)
    ensures !PutsOn(b, Act(cfg, w, p, c).1)
  {}

  lemma CopyOfAnother(cfg: Config, b: Backend, d: Dirs, disk: Disk, w: World, p: Proc, c: Choice)
    requires GoodConfig(cfg) && b in cfg.backends.Values && b.Filesystem? && ProcOk(cfg, w, p) && p.PutCopy? && p.b != b
    requires SameFiles(b, d, disk, w.store)
    ensures SameFiles(b, d, disk, Act(cfg, w, p, c).0.store)
  {
    forall oid | ValidOid(oid) ensures UriOf(b, oid) != UriOf(p.b, p.oid) {
      if UriOf(b, oid) == UriOf(p.b, p.oid) { OneBackendOwnsFile(b, p.b, oid, p.oid); }
    }
    OthersFiles(b, d, disk, w.store, Act(cfg, w, p, c).0.store, UriOf(p.b, p.oid));
  }

  /** What the loser's Delete leaves of the store. */
  lemma LoserLeaves(cfg: Config, w: World, p: Proc, c: Choice)
    requires p.LoserDelete?
    ensures Act(cfg, w, p, c).0.store == if c.fault == Fails then w.store else Removed(w.store, p.uri)
  {
    assert Act(cfg, w, p, c) == LoserStep(w, p, c);
  }

  lemma UriElsewhere(b: Backend, d: Dirs, disk: Disk, store: map<Uri, Bytes>, uri: Uri)
    requires b.Filesystem? && SameFiles(b, d, disk, store) && |uri| >= 64 && (ValidOid(OidOf(uri)) ==> uri != UriOf(b, OidOf(uri)))
    ensures SameFiles(b, d, disk, Removed(store, uri))
  {
    forall oid | ValidOid(oid) ensures UriOf(b, oid) != uri {
      UriEndsInOid(b, oid);
    }
    OthersFiles(b, d, disk, store, Removed(store, uri), uri);
  }

  lemma LoserOnDisk(cfg: Config, b: Backend, d: Dirs, disk: Disk, w: World, p: Proc, c: Choice)
    requires Matches(cfg, b, d) && ProcOk(cfg, w, p) && p.LoserDelete? && SameFiles(b, d, disk, w.store)
    ensures SameFiles(b, d, if LosesFile(b, p, c) then Unlinked(disk, FinalPath(d, p.oid)) else disk, Act(cfg, w, p, c).0.store)
  {
    LoserLeaves(cfg, w, p, c);
    if LosesFile(b, p, c) {
      RemovedFiles(b, d, disk, p.oid, w.store);
    } else if c.fault != Fails {
      UriElsewhere(b, d, disk, w.store, p.uri);
    }
  }

  lemma SweepOffDisk(cfg: Config, b: Backend, d: Dirs, disk: Disk, w: World, p: Proc, c: Choice)
    requires GoodConfig(cfg) && b in cfg.backends.Values && b.Filesystem? && ProcOk(cfg, w, p) && p.SweepDelete?
    requires SameFiles(b, d, disk, w.store)
    ensures SameFiles(b, d, disk, Act(cfg, w, p, c).0.store)
  {
    if p.uris != [] && c.fault != Fails {
      BucketIsNotFile(cfg, b, p.uris[0]);
      OthersFiles(b, d, disk, w.store, Removed(w.store, p.uris[0]), p.uris[0]);
    }
  }

  lemma ActOnDisk(cfg: Config, b: Backend, d: Dirs, disk: Disk, w: World, p: Proc, c: Choice)
    requires GoodConfig(cfg) && Matches(cfg, b, d) && b in cfg.backends.Values && ProcOk(cfg, w, p) && !PutsOn(b, p)
    requires SameFiles(b, d, disk, w.store)
    ensures SameFiles(b, d, if LosesFile(b, p, c) then Unlinked(disk, FinalPath(d, p.oid)) else disk, Act(cfg, w, p, c).0.store)
  {
    if p.PutCopy? {
      CopyOfAnother(cfg, b, d, disk, w, p, c);
    } else if p.LoserDelete? {
      LoserOnDisk(cfg, b, d, disk, w, p, c);
    } else if p.SweepDelete? {
      SweepOffDisk(cfg, b, d, disk, w, p, c);
    } else {
      StoreUntouched(cfg, w, p, c);
    }
  }

  lemma ClientPutOffDisk(cfg: Config, b: Backend, d: Dirs, disk: Disk, w: World, t: Ticket, data: Bytes)
    requires GoodConfig(cfg) && b in cfg.backends.Values && b.Filesystem? && TicketOk(cfg, t) && SameFiles(b, d, disk, w.store)
    ensures SameFiles(b, d, disk, w.store[t.uri := data])
  {
    BucketIsNotFile(cfg, b, t.uri);
    OthersFiles(b, d, disk, w.store, w.store[t.uri := data], t.uri);
  }

  lemma DeathOnDisk(b: Backend, d: Dirs, s: Store, store: map<Uri, Bytes>, pid: nat)
    requires SameFiles(b, d, s.disk, store)
    ensures SameFiles(b, d, StoreNext(d, s, Die(pid)).disk, store)
  {
    if pid in s.puts { assert SameFiles(b, d, Abandoned(s.disk, s.puts[pid]), store); }
  }

  lemma AdvanceFiles(cfg: Config, b: Backend, d: Dirs, x: Site, pid: nat, c: Choice)
    requires GoodConfig(cfg) && Matches(cfg, b, d) && b in cfg.backends.Values
    requires Inv(cfg, x.server) && SameFiles(b, d, x.files.disk, x.server.world.store) && SameRequests(b, x.files, x.server.procs)
    requires !StillPutting(x.files, pid)
    ensures SameFiles(b, d, OnFiles(cfg, b, d, x, Advance(pid, c)).disk, Lifecycle.Next(cfg, x.server, Advance(pid, c)).world.store)
  {
    if pid in x.server.procs {
      assert ProcOk(cfg, x.server.world, x.server.procs[pid]);
      AdvanceIsAct(cfg, x.server, pid, c);
      ActOnDisk(cfg, b, d, x.files.disk, x.server.world, x.server.procs[pid], c);
    }
  }

  /** The disk after an event of the server. */
  lemma EventFiles(cfg: Config, b: Backend, d: Dirs, x: Site, e: Event)
    requires GoodConfig(cfg) && Matches(cfg, b, d) && b in cfg.backends.Values
    requires Inv(cfg, x.server) && SameFiles(b, d, x.files.disk, x.server.world.store) && SameRequests(b, x.files, x.server.procs)
    requires !(e.Advance? && StillPutting(x.files, e.pid))
    ensures SameFiles(b, d, OnFiles(cfg, b, d, x, e).disk, Lifecycle.Next(cfg, x.server, e).world.store)
  {
    var w := x.server.world;
    match e
    case Advance(pid, c) =>
      AdvanceFiles(cfg, b, d, x, pid, c);
    case ClientPut(t, data) =>
      if Accepts(cfg, w, t, data) {
        assert TicketOk(cfg, t);
        ClientPutOffDisk(cfg, b, d, x.files.disk, w, t, data);
      }
    case Crash(pid) => DeathOnDisk(b, d, x.files, w.store, pid);
    case Arrive(_, _) =>
  }

  lemma AdmittedPut(cfg: Config, request: Request)
    ensures var p := Admit(cfg, request); !p.PutCopy? && (p.PutStat? ==> ValidOid(p.oid))
  {}

  lemma PutBegins(b: Backend, s: Store, procs: map<nat, Proc>, pid: nat, p: Proc)
    requires SameRequests(b, s, procs) && pid !in procs && p.PutStat? && p.b == b && ValidOid(p.oid)
    ensures pid !in s.puts && SameRequests(b, s.(puts := s.puts[pid := Stat(p.oid, p.size, p.body)]), procs[pid := p])
  {
    assert p == Seen(b, p.repo, Stat(p.oid, p.size, p.body));
    assert Known(b, Stat(p.oid, p.size, p.body), p);
  }

  /** Another request moves, arrives or goes on, without becoming a Put here. */
  lemma OtherMoves(b: Backend, s: Store, procs: map<nat, Proc>, pid: nat, p: Proc)
    requires SameRequests(b, s, procs) && !StillPutting(s, pid) && !PutsOn(b, p)
    ensures SameRequests(b, s, procs[pid := p])
  {}

  lemma PutDies(b: Backend, s: Store, procs: map<nat, Proc>, procs': map<nat, Proc>, disk': Disk, pid: nat)
    requires SameRequests(b, s, procs)
    requires procs' == procs - {pid} || (procs' == procs && (pid !in procs || !PutsOn(b, procs[pid])))
    ensures SameRequests(b, Store(disk', s.puts - {pid}), procs')
  {}

  lemma CrashRequests(cfg: Config, b: Backend, d: Dirs, x: Site, pid: nat)
    requires SameRequests(b, x.files, x.server.procs)
    ensures SameRequests(b, StoreNext(d, x.files, Die(pid)), Lifecycle.Next(cfg, x.server, Crash(pid)).procs)
  {
    var t := Lifecycle.Next(cfg, x.server, Crash(pid));
    assert pid in x.server.procs && !x.server.procs[pid].Finished? ==> t.procs == x.server.procs - {pid};
    PutDies(b, x.files, x.server.procs, t.procs, StoreNext(d, x.files, Die(pid)).disk, pid);
    assert pid !in x.files.puts ==> x.files.puts - {pid} == x.files.puts;
  }

  lemma EventRequests(cfg: Config, b: Backend, d: Dirs, x: Site, e: Event)
    requires SameRequests(b, x.files, x.server.procs) && !(e.Advance? && StillPutting(x.files, e.pid))
    ensures SameRequests(b, OnFiles(cfg, b, d, x, e), Lifecycle.Next(cfg, x.server, e).procs)
  {
    match e
    case Advance(pid, c) =>
      if pid in x.server.procs && Shaped(x.server.procs[pid]) {
        NoNewPut(cfg, x.server.world, b, x.server.procs[pid], c);
        OtherMoves(b, x.files, x.server.procs, pid, Act(cfg, x.server.world, x.server.procs[pid], c).1);
      }
    case Arrive(pid, request) =>
      AdmittedPut(cfg, request);
      if pid !in x.server.procs {
        var p := Admit(cfg, request);
        if p.PutStat? && p.b == b {
          PutBegins(b, x.files, x.server.procs, pid, p);
        } else {
          OtherMoves(b, x.files, x.server.procs, pid, p);
        }
      }
    case Crash(pid) => CrashRequests(cfg, b, d, x, pid);
    case ClientPut(_, _) =>
  }

  lemma StoreEventKeeps(d: Dirs, s: Store, f: StoreEvent)
    requires StoreOk(d, s) && Hidden(d, s) && Whole(d, s.disk) && !f.Go?
    ensures StoreOk(d, StoreNext(d, s, f)) && Hidden(d, StoreNext(d, s, f)) && Whole(d, StoreNext(d, s, f).disk)
  {
    StoreNextOk(d, s, f);
    NextStaysHidden(d, s, f);
    WholeIff(d, s, f);
  }

  lemma EventKeepsFiles(cfg: Config, b: Backend, d: Dirs, x: Site, e: Event)
    requires StoreOk(d, x.files) && Hidden(d, x.files) && Whole(d, x.files.disk)
    ensures var s := OnFiles(cfg, b, d, x, e); StoreOk(d, s) && Hidden(d, s) && Whole(d, s.disk)
  {
    match e
    case Arrive(pid, request) =>
      var p := Admit(cfg, request);
      if p.PutStat? { StoreEventKeeps(d, x.files, Begin(pid, p.oid, p.size, p.body)); }
    case Crash(pid) => StoreEventKeeps(d, x.files, Die(pid));
    case Advance(pid, c) =>
      if pid in x.server.procs && LosesFile(b, x.server.procs[pid], c) {
        StoreEventKeeps(d, x.files, Unlink(x.server.procs[pid].oid));
      }
    case ClientPut(_, _) =>
  }

  // ------------------------------------------------------------ joint runs

  /** One joint step is one event of the server, or none, and keeps the two
      views together. */
  lemma JointStep(cfg: Config, b: Backend, d: Dirs, x: Site, j: Joint) returns (events: seq<Event>)
    requires GoodConfig(cfg) && Matches(cfg, b, d) && b in cfg.backends.Values && Coupled(cfg, b, d, x)
    requires !(j.OnDisk? && Stolen(x.files, Go(j.pid, j.suffix, j.fails)))
    ensures Coupled(cfg, b, d, JointNext(cfg, b, d, x, j))
    ensures |events| <= 1 && JointNext(cfg, b, d, x, j).server == Run(cfg, x.server, events)
  {
    var x' := JointNext(cfg, b, d, x, j);
    match j
    case OnDisk(pid, suffix, fails) =>
      events := JointDiskStep(cfg, b, d, x, pid, suffix, fails);
    case InServer(e) =>
      if e.Advance? && StillPutting(x.files, e.pid) {
        events := [];
      } else {
        events := [e];
        assert events[1..] == [];
        NextKeeps(cfg, x.server, e);
        EventFiles(cfg, b, d, x, e);
        EventRequests(cfg, b, d, x, e);
        EventKeepsFiles(cfg, b, d, x, e);
      }
  }

  lemma CallKeepsFiles(d: Dirs, s: Store, pid: nat, suffix: string, fails: bool)
    requires StoreOk(d, s) && Hidden(d, s) && Whole(d, s.disk) && pid in s.puts && !Stolen(s, Go(pid, suffix, fails))
    ensures var t := StoreNext(d, s, Go(pid, suffix, fails));
            Runnable(s, pid) && StoreOk(d, t) && Hidden(d, t) && Whole(d, t.disk)
  {
    var go := Go(pid, suffix, fails);
    GoOk(d, s, pid, suffix, fails);
    NextStaysHidden(d, s, go);
    SpoilsIffStolen(d, s, go);
    WholeIff(d, s, go);
  }

  /** A Put that has returned does nothing more. */
  lemma RestingCall(cfg: Config, b: Backend, d: Dirs, x: Site, pid: nat, suffix: string, fails: bool)
    requires !StillPutting(x.files, pid)
    ensures JointNext(cfg, b, d, x, OnDisk(pid, suffix, fails)) == x
  {
    if pid in x.files.puts {
      assert x.files.puts[pid := x.files.puts[pid]] == x.files.puts;
    }
  }

  lemma CallMovesFiles(cfg: Config, b: Backend, d: Dirs, x: Site, pid: nat, suffix: string, fails: bool)
    requires Runnable(x.files, pid)
    ensures JointNext(cfg, b, d, x, OnDisk(pid, suffix, fails)).files == StoreNext(d, x.files, Go(pid, suffix, fails))
  {}

  /** The server's side of a call: one event, or none. */
  lemma CallIsAnEvent(cfg: Config, b: Backend, d: Dirs, x: Site, pid: nat, suffix: string, fails: bool) returns (events: seq<Event>)
    requires GoodConfig(cfg) && Inv(cfg, x.server)
    ensures var t := JointNext(cfg, b, d, x, OnDisk(pid, suffix, fails)).server;
            |events| <= 1 && t == Run(cfg, x.server, events) && Inv(cfg, t)
  {
    events := [];
    if Runnable(x.files, pid) {
      var choice := AtomOf(d, x.files.disk, x.files.puts[pid], suffix, fails);
      if choice.Some? {
        events := [Advance(pid, choice.value)];
        assert events[1..] == [];
        NextKeeps(cfg, x.server, events[0]);
      }
    }
  }

  lemma JointDiskStep(cfg: Config, b: Backend, d: Dirs, x: Site, pid: nat, suffix: string, fails: bool) returns (events: seq<Event>)
    requires GoodConfig(cfg) && Matches(cfg, b, d) && Coupled(cfg, b, d, x) && !Stolen(x.files, Go(pid, suffix, fails))
    ensures Coupled(cfg, b, d, JointNext(cfg, b, d, x, OnDisk(pid, suffix, fails)))
    ensures |events| <= 1 && JointNext(cfg, b, d, x, OnDisk(pid, suffix, fails)).server == Run(cfg, x.server, events)
  {
    if StillPutting(x.files, pid) {
      events := CallIsAnEvent(cfg, b, d, x, pid, suffix, fails);
      CallKeepsFiles(d, x.files, pid, suffix, fails);
      CallMovesFiles(cfg, b, d, x, pid, suffix, fails);
      DiskKeepsCoupling(cfg, b, d, x, pid, suffix, fails);
    } else {
      RestingCall(cfg, b, d, x, pid, suffix, fails);
      events := [];
    }
  }

  /** Every joint run is a run of the server, with other requests, other backends
      and the janitor in between, and in the end the files are those the server
      believes in. */
  lemma {:induction false} JointRunIsARun(cfg: Config, b: Backend, d: Dirs, x: Site, joint: seq<Joint>) returns (events: seq<Event>)
    requires GoodConfig(cfg) && Matches(cfg, b, d) && b in cfg.backends.Values && Coupled(cfg, b, d, x)
    requires NoTheft(cfg, b, d, x, joint)
    ensures Coupled(cfg, b, d, JointRun(cfg, b, d, x, joint))
    ensures JointRun(cfg, b, d, x, joint).server == Run(cfg, x.server, events)
    decreases |joint|
  {
    events := [];
    if joint != [] {
      var first := JointStep(cfg, b, d, x, joint[0]);
      var rest := JointRunIsARun(cfg, b, d, JointNext(cfg, b, d, x, joint[0]), joint[1..]);
      RunAppend(cfg, x.server, first, rest);
      events := first + rest;
    }
  }

  const START: Site := Site(EMPTY_STORE, INITIAL)

  /** On the real disk: the file of every verified row is there and hashes to its
      object id, and so is that of every request about to link it, unless it has
      lost its race. */
  lemma DiskBacksRows(cfg: Config, b: Backend, d: Dirs, joint: seq<Joint>, oid: Oid)
    requires GoodConfig(cfg) && Matches(cfg, b, d) && b in cfg.backends.Values && NoTheft(cfg, b, d, START, joint) && ValidOid(oid)
    ensures var x := JointRun(cfg, b, d, START, joint);
            Canonical(x.server.world.db, oid) == Some(UriOf(b, oid)) ==>
              FinalPath(d, oid) in x.files.disk.dir && HashesTo(d, x.files.disk, FinalPath(d, oid), oid)
    ensures var x := JointRun(cfg, b, d, START, joint);
            forall pid | pid in x.server.procs && x.server.procs[pid].PutLink? && x.server.procs[pid].uri == UriOf(b, oid) ::
              FinalPath(d, oid) in x.files.disk.dir || Lost(x.server.world.db, oid, UriOf(b, oid))
  {
    var x := JointRun(cfg, b, d, START, joint);
    var events := JointRunIsARun(cfg, b, d, START, joint);
    assert FinalPath(d, oid) in x.files.disk.dir <==> UriOf(b, oid) in x.server.world.store;
    if Canonical(x.server.world.db, oid) == Some(UriOf(b, oid)) {
      NamedUri(cfg, b, oid);
      CanonicalCell(cfg, x.server.world, oid, UriOf(b, oid));
    }
    LinkersHaveFiles(cfg, x.server, b, oid);
  }

  /** In the server: whoever is about to link has its object, or has lost. */
  lemma LinkersHaveFiles(cfg: Config, s: Lifecycle.State, b: Backend, oid: Oid)
    requires Inv(cfg, s) && b.Filesystem? && ValidOid(oid)
    ensures forall pid | pid in s.procs && s.procs[pid].PutLink? && s.procs[pid].uri == UriOf(b, oid) ::
              UriOf(b, oid) in s.world.store || Lost(s.world.db, oid, UriOf(b, oid))
  {
    UriEndsInOid(b, oid);
    forall pid | pid in s.procs && s.procs[pid].PutLink? && s.procs[pid].uri == UriOf(b, oid)
      ensures UriOf(b, oid) in s.world.store || Lost(s.world.db, oid, UriOf(b, oid))
    {
      assert ProcOk(cfg, s.world, s.procs[pid]);
    }
  }
}
