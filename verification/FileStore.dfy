/** FilesystemBackend.Put in the file system: directory entries, inodes, and any
    number of Puts at any of their steps, with deletes, faults and crashes in
    between. */
module FileStore {
  import opened Wrappers
  import opened Uris
  import opened Streams

  type Path = string

  /** What is on disk. `leaked` remembers the temporary files of Puts that died
      or failed to remove them. */
  datatype Disk = Disk(dir: map<Path, nat>, data: map<nat, Bytes>, nextInode: nat, leaked: set<Path>)

  /** A Put, named after what it does next. A writer holds its temporary file
      open, so it writes to the inode, whatever happens to the name. */
  datatype Putter =
    | Stat(oid: Oid, size: int, body: seq<Chunk>)
    | CreateTemp(oid: Oid, size: int, body: seq<Chunk>)
    | Write(oid: Oid, size: int, body: seq<Chunk>, left: seq<Chunk>, tmp: Path, inode: nat)
    | Rename(oid: Oid, size: int, body: seq<Chunk>, tmp: Path, inode: nat)
    | RemoveTemp(oid: Oid, size: int, tmp: Path, result: Option<ReadError>)
    | Returned(oid: Oid, size: int, result: Option<ReadError>)

  datatype Store = Store(disk: Disk, puts: map<nat, Putter>)

  datatype Dirs = Dirs(scheme: string, root: string, tempDir: string, sha: Bytes -> Oid)

  datatype StoreEvent =
    | Begin(pid: nat, oid: Oid, size: int, body: seq<Chunk>)
    | Go(pid: nat, suffix: string, fails: bool)
    | Die(pid: nat)
    | Unlink(oid: Oid)

  // ------------------------------------------------------------ names

  /** os.CreateTemp(tempDir, "upload-*"): the star becomes decimal digits. */
  predicate Digits(s: string) {
    forall i :: 0 <= i < |s| ==> '0' <= s[i] <= '9'
  }

  function TempPath(d: Dirs, suffix: string): Path {
    d.tempDir + "/upload-" + suffix
  }

  function FinalPath(d: Dirs, oid: Oid): Path
    requires |oid| >= 4
  {
    StoragePath(d.root, oid)
  }

  ghost predicate IsFinal(d: Dirs, p: Path) {
    exists oid :: ValidOid(oid) && p == FinalPath(d, oid)
  }

  /** A temporary name is never a final one, wherever the two directories are:
      the last component of one starts with a letter no object id has. */
  lemma TempIsNotFinal(d: Dirs, suffix: string, oid: Oid)
    requires Digits(suffix) && ValidOid(oid)
    ensures TempPath(d, suffix) != FinalPath(d, oid)
  {
    var t, f := TempPath(d, suffix), FinalPath(d, oid);
    var k, m := |d.tempDir|, |f| - 65;
    assert t[k] == '/' && t[k + 1] == 'u';
    assert f[m] == '/' && f[m + 1..] == oid;
    assert forall i :: k < i < |t| ==> t[i] != '/' by {
      forall i | k < i < |t| ensures t[i] != '/' {
        assert t[i] == ("/upload-" + suffix)[i - k];
      }
    }
    assert forall i :: m < i < |f| ==> HexChar(f[i]) by {
      forall i | m < i < |f| ensures HexChar(f[i]) {
        assert f[i] == oid[i - m - 1];
      }
    }
    assert !HexChar('/') && !HexChar('u');
  }

  lemma FinalDeterminesOid(d: Dirs, oid: Oid, other: Oid)
    requires ValidOid(oid) && ValidOid(other) && FinalPath(d, oid) == FinalPath(d, other)
    ensures oid == other
  {
    var p := FinalPath(d, oid);
    assert p[|p| - 64..] == oid && p[|p| - 64..] == other;
  }

  // ------------------------------------------------------------ steps

  function Unlinked(disk: Disk, p: Path): Disk {
    disk.(dir := map q | q in disk.dir && q != p :: disk.dir[q])
  }

  /** The deferred removal and the end of a Put that gives up. */
  function GiveUp(disk: Disk, p: Putter, err: ReadError): (Disk, Putter)
    requires p.Write? || p.Rename?
  {
    (disk, RemoveTemp(p.oid, p.size, p.tmp, Some(err)))
  }

  /** One round of io.Copy into the open file. */
  function WriteStep(d: Dirs, disk: Disk, p: Putter, fails: bool): (Disk, Putter)
    requires p.Write? && p.inode in disk.data
  {
    if fails then GiveUp(disk, p, OtherError)
    else
      var content := disk.data[p.inode] + First(p.left).data;
      var disk' := disk.(data := disk.data[p.inode := content]);
      var c := HashChecked(SizeChecked(First(p.left), |content|, p.size), d.sha(content), p.oid);
      match c.err
      case None => (disk', p.(left := Rest(p.left)))
      case Some(Eof) => (disk', Rename(p.oid, p.size, p.body, p.tmp, p.inode))
      case Some(err) => GiveUp(disk', p, err)
  }

  function RenameStep(d: Dirs, disk: Disk, p: Putter, fails: bool): (Disk, Putter)
    requires p.Rename? && |p.oid| >= 4
  {
    if fails || p.tmp !in disk.dir then GiveUp(disk, p, OtherError)
    else
      (Unlinked(disk, p.tmp).(dir := Unlinked(disk, p.tmp).dir[FinalPath(d, p.oid) := disk.dir[p.tmp]]),
       RemoveTemp(p.oid, p.size, p.tmp, None))
  }

  function CreateStep(d: Dirs, disk: Disk, p: Putter, suffix: string, fails: bool): (Disk, Putter)
    requires p.CreateTemp?
  {
    var tmp := TempPath(d, suffix);
    if fails then (disk, Returned(p.oid, p.size, Some(OtherError)))
    else if tmp in disk.dir || !Digits(suffix) then (disk, p) // exclusive create: try another name
    else
      (disk.(dir := disk.dir[tmp := disk.nextInode], data := disk.data[disk.nextInode := []], nextInode := disk.nextInode + 1),
       Write(p.oid, p.size, p.body, p.body, tmp, disk.nextInode))
  }

  function PutterStep(d: Dirs, disk: Disk, p: Putter, suffix: string, fails: bool): (Disk, Putter)
    requires |p.oid| >= 4 && (p.Write? ==> p.inode in disk.data)
  {
    match p
    case Stat(oid, size, body) =>
      if !fails && FinalPath(d, oid) in disk.dir then (disk, Returned(oid, size, None)) else (disk, CreateTemp(oid, size, body))
    case CreateTemp(_, _, _) => CreateStep(d, disk, p, suffix, fails)
    case Write(_, _, _, _, _, _) => WriteStep(d, disk, p, fails)
    case Rename(_, _, _, _, _) => RenameStep(d, disk, p, fails)
    case RemoveTemp(oid, size, tmp, result) =>
      (if !fails then Unlinked(disk, tmp)
       else if tmp in disk.dir then disk.(leaked := disk.leaked + {tmp}) else disk, Returned(oid, size, result))
    case Returned(_, _, _) => (disk, p)
  }

  predicate Runnable(s: Store, pid: nat) {
    pid in s.puts && |s.puts[pid].oid| >= 4 && (s.puts[pid].Write? ==> s.puts[pid].inode in s.disk.data)
  }

  /** The temporary name a Put goes by until it has returned. */
  predicate HoldsName(p: Putter, tmp: Path) {
    (p.Write? || p.Rename? || p.RemoveTemp?) && p.tmp == tmp
  }

  function Abandoned(disk: Disk, p: Putter): Disk {
    if (p.Write? || p.Rename? || p.RemoveTemp?) && p.tmp in disk.dir then disk.(leaked := disk.leaked + {p.tmp}) else disk
  }

  function StoreNext(d: Dirs, s: Store, e: StoreEvent): Store {
    match e
    case Begin(pid, oid, size, body) =>
      if pid in s.puts || !ValidOid(oid) then s else s.(puts := s.puts[pid := Stat(oid, size, body)])
    case Go(pid, suffix, fails) =>
      if !Runnable(s, pid) then s
      else
        var (disk, p) := PutterStep(d, s.disk, s.puts[pid], suffix, fails);
        Store(disk, s.puts[pid := p])
    case Die(pid) =>
      if pid !in s.puts then s else Store(Abandoned(s.disk, s.puts[pid]), s.puts - {pid})
    case Unlink(oid) =>
      if !ValidOid(oid) then s else s.(disk := Unlinked(s.disk, FinalPath(d, oid)))
  }

  function StoreRun(d: Dirs, s: Store, events: seq<StoreEvent>): Store
    decreases |events|
  {
    if events == [] then s else StoreRun(d, StoreNext(d, s, events[0]), events[1..])
  }

  const EMPTY_STORE: Store := Store(Disk(map[], map[], 0, {}), map[])

  // ------------------------------------------------------------ what holds over every run

  /** A name in the directory is final, or held by a live Put, or was leaked. */
  ghost predicate Accounted(d: Dirs, s: Store, p: Path) {
    IsFinal(d, p) || p in s.disk.leaked || exists pid :: pid in s.puts && HoldsName(s.puts[pid], p)
  }

  ghost predicate AllAccounted(d: Dirs, s: Store) {
    forall p | p in s.disk.dir :: Accounted(d, s, p)
  }

  /** Names are one to one with allocated inodes. */
  predicate DiskOk(disk: Disk) {
    && (forall p | p in disk.dir :: disk.dir[p] in disk.data)
    && (forall i | i in disk.data :: i < disk.nextInode)
    && (forall p, q | p in disk.dir && q in disk.dir :: disk.dir[p] == disk.dir[q] ==> p == q)
  }

  /** A writer's own file holds what it has written, under whatever name. */
  ghost predicate PutterOk(d: Dirs, disk: Disk, p: Putter) {
    && ValidOid(p.oid)
    && (p.Write? || p.Rename? || p.RemoveTemp? ==> !IsFinal(d, p.tmp))
    && match p
       case Write(oid, size, body, left, tmp, inode) =>
         inode in disk.data && Midway(body, size, disk.data[inode], left)
       case Rename(oid, size, body, tmp, inode) =>
         inode in disk.data && CopyResult(d.sha, body, size, oid).None? && disk.data[inode] == Flow(body).0
       case _ => true
  }

  ghost predicate PuttersOk(d: Dirs, s: Store) {
    forall pid | pid in s.puts :: PutterOk(d, s.disk, s.puts[pid])
  }

  predicate Owns(p: Putter, inode: nat) {
    (p.Write? || p.Rename?) && p.inode == inode
  }

  /** No two live Puts write to the same file. */
  predicate InodesApart(puts: map<nat, Putter>) {
    forall a, b | a in puts && b in puts && (puts[b].Write? || puts[b].Rename?) :: Owns(puts[a], puts[b].inode) ==> a == b
  }

  ghost predicate StoreOk(d: Dirs, s: Store) {
    DiskOk(s.disk) && AllAccounted(d, s) && PuttersOk(d, s) && InodesApart(s.puts)
  }

  function After(s: Store, pid: nat, r: (Disk, Putter)): Store {
    Store(r.0, s.puts[pid := r.1])
  }

  lemma FinalIsFinal(d: Dirs, oid: Oid)
    requires ValidOid(oid)
    ensures IsFinal(d, FinalPath(d, oid))
  {}

  lemma TempIsTemp(d: Dirs, suffix: string)
    requires Digits(suffix)
    ensures !IsFinal(d, TempPath(d, suffix))
  {
    forall oid | ValidOid(oid) ensures TempPath(d, suffix) != FinalPath(d, oid) {
      TempIsNotFinal(d, suffix, oid);
    }
  }

  /** A name stays accounted for unless its holder lets go of it. */
  lemma StillAccounted(d: Dirs, s: Store, t: Store, pid: nat, q: Path)
    requires Accounted(d, s, q) && s.disk.leaked <= t.disk.leaked
    requires forall other | other in s.puts && other != pid :: other in t.puts && t.puts[other] == s.puts[other]
    requires pid in s.puts && HoldsName(s.puts[pid], q) ==> (pid in t.puts && HoldsName(t.puts[pid], q)) || q in t.disk.leaked
    ensures Accounted(d, t, q)
  {
    if !IsFinal(d, q) && q !in t.disk.leaked {
      var other :| other in s.puts && HoldsName(s.puts[other], q);
      assert HoldsName(t.puts[other], q);
    }
  }

  /** What the writer's next chunk makes of it. */
  lemma WriteAdvances(d: Dirs, disk: Disk, p: Putter, fails: bool)
    requires PutterOk(d, disk, p) && p.Write?
    ensures PutterOk(d, WriteStep(d, disk, p, fails).0, WriteStep(d, disk, p, fails).1)
  {
    var done := disk.data[p.inode];
    var content := done + First(p.left).data;
    var c := HashChecked(SizeChecked(First(p.left), |content|, p.size), d.sha(content), p.oid);
    if c.err.Some? {
      CopyStops(d.sha, p.body, p.size, p.oid, done, p.left, c);
      CopySucceedsIff(d.sha, p.body, p.size, p.oid);
    } else {
      CopyGoesOn(p.body, p.size, done, p.left);
    }
  }

  predicate OnlyInode(disk: Disk, disk': Disk, inode: nat) {
    && disk'.dir == disk.dir && disk'.nextInode == disk.nextInode && disk'.leaked == disk.leaked
    && disk'.data.Keys == disk.data.Keys
    && forall i | i in disk.data && i != inode :: disk'.data[i] == disk.data[i]
  }

  lemma WriteShape(d: Dirs, disk: Disk, p: Putter, fails: bool)
    requires p.Write? && p.inode in disk.data
    ensures var (disk', p') := WriteStep(d, disk, p, fails);
            && OnlyInode(disk, disk', p.inode) && p'.oid == p.oid
            && (disk'.data[p.inode] == if fails then disk.data[p.inode] else disk.data[p.inode] + First(p.left).data)
            && (forall tmp :: HoldsName(p', tmp) <==> HoldsName(p, tmp))
            && (forall i :: Owns(p', i) ==> Owns(p, i))
  {}

  /** One Put steps: enough about the new disk and the new Put for everything
      else to stay sound. */
  lemma OneStep(d: Dirs, s: Store, pid: nat, disk': Disk, p': Putter)
    requires StoreOk(d, s) && pid in s.puts && DiskOk(disk') && PutterOk(d, disk', p')
    requires forall i | i in s.disk.data && !Owns(s.puts[pid], i) :: i in disk'.data && disk'.data[i] == s.disk.data[i]
    requires forall i :: Owns(p', i) ==> Owns(s.puts[pid], i) || i !in s.disk.data
    requires s.disk.leaked <= disk'.leaked
    requires forall q | q in disk'.dir && q !in s.disk.dir :: IsFinal(d, q) || HoldsName(p', q)
    requires forall q | q in disk'.dir && HoldsName(s.puts[pid], q) :: HoldsName(p', q) || q in disk'.leaked
    ensures StoreOk(d, After(s, pid, (disk', p')))
  {
    var t := After(s, pid, (disk', p'));
    forall q | q in t.disk.dir ensures Accounted(d, t, q) {
      if q in s.disk.dir {
        StillAccounted(d, s, t, pid, q);
      } else if HoldsName(p', q) {
        assert HoldsName(t.puts[pid], q);
      }
    }
    forall other | other in t.puts && other != pid ensures PutterOk(d, disk', t.puts[other]) {
      OthersFile(d, s, pid, other);
    }
    OwnersApart(d, s, pid, p');
  }

  lemma OthersFile(d: Dirs, s: Store, pid: nat, other: nat)
    requires PuttersOk(d, s) && InodesApart(s.puts) && pid in s.puts && other in s.puts && pid != other
    ensures PutterOk(d, s.disk, s.puts[other])
    ensures s.puts[other].Write? || s.puts[other].Rename? ==> s.puts[other].inode in s.disk.data && !Owns(s.puts[pid], s.puts[other].inode)
  {
    assert PutterOk(d, s.disk, s.puts[other]);
  }

  lemma OwnersApart(d: Dirs, s: Store, pid: nat, p': Putter)
    requires PuttersOk(d, s) && InodesApart(s.puts) && pid in s.puts
    requires forall i :: Owns(p', i) ==> Owns(s.puts[pid], i) || i !in s.disk.data
    ensures InodesApart(s.puts[pid := p'])
  {
    forall other | other in s.puts && other != pid && (s.puts[other].Write? || s.puts[other].Rename?)
      ensures !Owns(p', s.puts[other].inode)
    {
      OthersFile(d, s, pid, other);
    }
  }

  lemma CreateOk(d: Dirs, s: Store, pid: nat, suffix: string, fails: bool)
    requires StoreOk(d, s) && pid in s.puts && s.puts[pid].CreateTemp?
    ensures StoreOk(d, After(s, pid, CreateStep(d, s.disk, s.puts[pid], suffix, fails)))
  {
    var p := s.puts[pid];
    assert PutterOk(d, s.disk, p);
    CopyStarts(p.body, p.size);
    if Digits(suffix) { TempIsTemp(d, suffix); }
    OneStep(d, s, pid, CreateStep(d, s.disk, p, suffix, fails).0, CreateStep(d, s.disk, p, suffix, fails).1);
  }

  lemma WriteOk(d: Dirs, s: Store, pid: nat, fails: bool)
    requires StoreOk(d, s) && pid in s.puts && s.puts[pid].Write?
    ensures StoreOk(d, After(s, pid, WriteStep(d, s.disk, s.puts[pid], fails)))
  {
    assert PutterOk(d, s.disk, s.puts[pid]);
    var (disk', p') := WriteStep(d, s.disk, s.puts[pid], fails);
    WriteAdvances(d, s.disk, s.puts[pid], fails);
    WriteShape(d, s.disk, s.puts[pid], fails);
    OneStep(d, s, pid, disk', p');
  }

  lemma RenameShape(d: Dirs, disk: Disk, p: Putter, fails: bool)
    requires DiskOk(disk) && p.Rename? && PutterOk(d, disk, p)
    ensures var (disk', p') := RenameStep(d, disk, p, fails);
            && DiskOk(disk') && disk'.data == disk.data && disk'.leaked == disk.leaked && PutterOk(d, disk', p') && p'.RemoveTemp? && p'.tmp == p.tmp
            && (forall q | q in disk'.dir && q !in disk.dir :: IsFinal(d, q))
  {
    FinalIsFinal(d, p.oid);
  }

  lemma RenameOk(d: Dirs, s: Store, pid: nat, fails: bool)
    requires StoreOk(d, s) && pid in s.puts && s.puts[pid].Rename?
    ensures StoreOk(d, After(s, pid, RenameStep(d, s.disk, s.puts[pid], fails)))
  {
    assert PutterOk(d, s.disk, s.puts[pid]);
    var (disk', p') := RenameStep(d, s.disk, s.puts[pid], fails);
    RenameShape(d, s.disk, s.puts[pid], fails);
    OneStep(d, s, pid, disk', p');
  }

  lemma RestOk(d: Dirs, s: Store, pid: nat, suffix: string, fails: bool)
    requires StoreOk(d, s) && pid in s.puts && (s.puts[pid].Stat? || s.puts[pid].RemoveTemp? || s.puts[pid].Returned?)
    ensures Runnable(s, pid) && StoreOk(d, After(s, pid, PutterStep(d, s.disk, s.puts[pid], suffix, fails)))
  {
    assert PutterOk(d, s.disk, s.puts[pid]);
    var (disk', p') := PutterStep(d, s.disk, s.puts[pid], suffix, fails);
    OneStep(d, s, pid, disk', p');
  }

  lemma GoOk(d: Dirs, s: Store, pid: nat, suffix: string, fails: bool)
    requires StoreOk(d, s) && pid in s.puts
    ensures Runnable(s, pid) && StoreOk(d, StoreNext(d, s, Go(pid, suffix, fails)))
  {
    assert PutterOk(d, s.disk, s.puts[pid]);
    match s.puts[pid]
    case CreateTemp(_, _, _) => CreateOk(d, s, pid, suffix, fails);
    case Write(_, _, _, _, _, _) => WriteOk(d, s, pid, fails);
    case Rename(_, _, _, _, _) => RenameOk(d, s, pid, fails);
    case _ => RestOk(d, s, pid, suffix, fails);
  }

  lemma DieOk(d: Dirs, s: Store, pid: nat)
    requires StoreOk(d, s) && pid in s.puts
    ensures StoreOk(d, StoreNext(d, s, Die(pid)))
  {
    var t := StoreNext(d, s, Die(pid));
    forall q | q in t.disk.dir ensures Accounted(d, t, q) {
      StillAccounted(d, s, t, pid, q);
    }
    forall other | other in t.puts ensures PutterOk(d, t.disk, t.puts[other]) {
      assert PutterOk(d, s.disk, s.puts[other]);
    }
  }

  lemma BeginOk(d: Dirs, s: Store, pid: nat, p: Putter)
    requires StoreOk(d, s) && pid !in s.puts && p.Stat? && ValidOid(p.oid)
    ensures StoreOk(d, s.(puts := s.puts[pid := p]))
  {
    var t := s.(puts := s.puts[pid := p]);
    forall q | q in t.disk.dir ensures Accounted(d, t, q) {
      StillAccounted(d, s, t, pid, q);
    }
  }

  lemma UnlinkOk(d: Dirs, s: Store, name: Path)
    requires StoreOk(d, s)
    ensures StoreOk(d, s.(disk := Unlinked(s.disk, name)))
  {
    var t := s.(disk := Unlinked(s.disk, name));
    forall q | q in t.disk.dir ensures Accounted(d, t, q) {
      assert Accounted(d, s, q);
    }
    forall pid | pid in s.puts ensures PutterOk(d, t.disk, s.puts[pid]) {
      assert PutterOk(d, s.disk, s.puts[pid]);
    }
  }

  /** Every event keeps this, whatever names CreateTemp draws. */
  lemma StoreNextOk(d: Dirs, s: Store, e: StoreEvent)
    requires StoreOk(d, s)
    ensures StoreOk(d, StoreNext(d, s, e))
  {
    match e
    case Begin(pid, oid, size, body) =>
      if pid !in s.puts && ValidOid(oid) { BeginOk(d, s, pid, Stat(oid, size, body)); }
    case Go(pid, suffix, fails) =>
      if pid in s.puts { GoOk(d, s, pid, suffix, fails); }
    case Die(pid) =>
      if pid in s.puts { DieOk(d, s, pid); }
    case Unlink(oid) =>
      if ValidOid(oid) { UnlinkOk(d, s, FinalPath(d, oid)); }
  }

  lemma {:induction false} StoreRunOk(d: Dirs, s: Store, events: seq<StoreEvent>)
    requires StoreOk(d, s)
    ensures StoreOk(d, StoreRun(d, s, events))
    decreases |events|
  {
    if events != [] {
      StoreNextOk(d, s, events[0]);
      StoreRunOk(d, StoreNext(d, s, events[0]), events[1..]);
    }
  }

  /** Over every run, with no assumption on names: every name is final, held by
      a live Put, or left by one that died or failed to remove it. When all Puts
      have returned and none did, only final files are there. */
  lemma EveryNameIsAccountedFor(d: Dirs, events: seq<StoreEvent>)
    ensures var s := StoreRun(d, EMPTY_STORE, events);
            && (forall p | p in s.disk.dir :: Accounted(d, s, p))
            && ((forall pid | pid in s.puts :: s.puts[pid].Returned?) && s.disk.leaked == {} ==>
                  forall p | p in s.disk.dir :: IsFinal(d, p))
  {
    StoreRunOk(d, EMPTY_STORE, events);
    var s := StoreRun(d, EMPTY_STORE, events);
    if (forall pid | pid in s.puts :: s.puts[pid].Returned?) && s.disk.leaked == {} {
      forall p | p in s.disk.dir ensures IsFinal(d, p) {
        assert Accounted(d, s, p);
      }
    }
  }

  // ------------------------------------------------------------ whole final files

  predicate FileIs(disk: Disk, p: Path, inode: nat) {
    p in disk.dir && disk.dir[p] == inode
  }

  /** Every final path is absent or holds bytes that hash to its object id. */
  ghost predicate Whole(d: Dirs, disk: Disk) {
    forall oid | ValidOid(oid) && FinalPath(d, oid) in disk.dir :: HashesTo(d, disk, FinalPath(d, oid), oid)
  }

  predicate HashesTo(d: Dirs, disk: Disk, p: Path, oid: Oid)
    requires p in disk.dir
  {
    disk.dir[p] in disk.data && d.sha(disk.data[disk.dir[p]]) == oid
  }

  /** A rename whose source, at that moment, is not the object; or a write into
      a file that already stands under a final name and no longer fits it. */
  ghost predicate Spoils(d: Dirs, s: Store, e: StoreEvent) {
    && e.Go? && !e.fails && e.pid in s.puts
    && match s.puts[e.pid]
       case Rename(oid, _, _, tmp, _) => tmp in s.disk.dir && !HashesTo(d, s.disk, tmp, oid)
       case Write(_, _, _, left, _, inode) =>
         inode in s.disk.data &&
         exists oid :: ValidOid(oid) && FileIs(s.disk, FinalPath(d, oid), inode) && d.sha(s.disk.data[inode] + First(left).data) != oid
       case _ => false
  }

  /** A step that moves no final name and leaves the files under them alone. */
  lemma WholeStays(d: Dirs, disk: Disk, disk': Disk)
    requires Whole(d, disk)
    requires forall p | p in disk'.dir && IsFinal(d, p) :: p in disk.dir && disk'.dir[p] == disk.dir[p]
    requires forall p | p in disk'.dir && IsFinal(d, p) && disk'.dir[p] in disk.data ::
               disk'.dir[p] in disk'.data && disk'.data[disk'.dir[p]] == disk.data[disk'.dir[p]]
    ensures Whole(d, disk')
  {
    forall oid | ValidOid(oid) && FinalPath(d, oid) in disk'.dir ensures HashesTo(d, disk', FinalPath(d, oid), oid) {
      FinalIsFinal(d, oid);
      assert HashesTo(d, disk, FinalPath(d, oid), oid);
    }
  }

  lemma CreateKeepsWhole(d: Dirs, s: Store, pid: nat, suffix: string, fails: bool)
    requires StoreOk(d, s) && Whole(d, s.disk) && pid in s.puts && s.puts[pid].CreateTemp?
    ensures Whole(d, CreateStep(d, s.disk, s.puts[pid], suffix, fails).0)
  {
    if Digits(suffix) { TempIsTemp(d, suffix); }
    WholeStays(d, s.disk, CreateStep(d, s.disk, s.puts[pid], suffix, fails).0);
  }

  lemma WriteKeepsWholeIff(d: Dirs, disk: Disk, p: Putter)
    requires Whole(d, disk) && p.Write? && p.inode in disk.data
    ensures Whole(d, WriteStep(d, disk, p, false).0) <==>
            !exists oid :: ValidOid(oid) && FileIs(disk, FinalPath(d, oid), p.inode) && d.sha(disk.data[p.inode] + First(p.left).data) != oid
  {
    var disk' := WriteStep(d, disk, p, false).0;
    WriteShape(d, disk, p, false);
    if oid :| ValidOid(oid) && FileIs(disk, FinalPath(d, oid), p.inode) && d.sha(disk.data[p.inode] + First(p.left).data) != oid {
      assert !HashesTo(d, disk', FinalPath(d, oid), oid);
    } else {
      forall oid | ValidOid(oid) && FinalPath(d, oid) in disk'.dir ensures HashesTo(d, disk', FinalPath(d, oid), oid) {
        assert HashesTo(d, disk, FinalPath(d, oid), oid);
        assert disk.dir[FinalPath(d, oid)] == p.inode ==> FileIs(disk, FinalPath(d, oid), p.inode);
      }
    }
  }

  lemma RenameKeepsWholeIff(d: Dirs, disk: Disk, p: Putter)
    requires Whole(d, disk) && p.Rename? && ValidOid(p.oid) && !IsFinal(d, p.tmp)
    ensures Whole(d, RenameStep(d, disk, p, false).0) <==> !(p.tmp in disk.dir && !HashesTo(d, disk, p.tmp, p.oid))
  {
    var disk' := RenameStep(d, disk, p, false).0;
    if p.tmp in disk.dir {
      assert disk'.dir[FinalPath(d, p.oid)] == disk.dir[p.tmp];
      assert HashesTo(d, disk', FinalPath(d, p.oid), p.oid) <==> HashesTo(d, disk, p.tmp, p.oid);
      forall oid | ValidOid(oid) && oid != p.oid && FinalPath(d, oid) in disk'.dir ensures HashesTo(d, disk', FinalPath(d, oid), oid) {
        if FinalPath(d, oid) == FinalPath(d, p.oid) { FinalDeterminesOid(d, oid, p.oid); }
        assert HashesTo(d, disk, FinalPath(d, oid), oid);
      }
    }
  }

  lemma GoKeepsWholeIff(d: Dirs, s: Store, pid: nat, suffix: string, fails: bool)
    requires StoreOk(d, s) && Whole(d, s.disk) && pid in s.puts
    ensures Whole(d, StoreNext(d, s, Go(pid, suffix, fails)).disk) <==> !Spoils(d, s, Go(pid, suffix, fails))
  {
    var p := s.puts[pid];
    assert PutterOk(d, s.disk, p);
    match p
    case CreateTemp(_, _, _) => CreateKeepsWhole(d, s, pid, suffix, fails);
    case Write(_, _, _, _, _, _) => if !fails { WriteKeepsWholeIff(d, s.disk, p); }
    case Rename(_, _, _, _, _) => if !fails { RenameKeepsWholeIff(d, s.disk, p); }
    case _ => WholeStays(d, s.disk, PutterStep(d, s.disk, p, suffix, fails).0);
  }

  /** One event, from any state a run can reach: the final files are whole after
      it exactly if it does not spoil one, which can be seen before it. */
  lemma WholeIff(d: Dirs, s: Store, e: StoreEvent)
    requires StoreOk(d, s) && Whole(d, s.disk)
    ensures Whole(d, StoreNext(d, s, e).disk) <==> !Spoils(d, s, e)
  {
    match e
    case Go(pid, suffix, fails) => if pid in s.puts { GoKeepsWholeIff(d, s, pid, suffix, fails); }
    case _ => WholeStays(d, s.disk, StoreNext(d, s, e).disk);
  }

  ghost predicate AlwaysWhole(d: Dirs, s: Store, events: seq<StoreEvent>)
    decreases |events|
  {
    Whole(d, s.disk) && (events == [] || AlwaysWhole(d, StoreNext(d, s, events[0]), events[1..]))
  }

  ghost predicate NeverSpoils(d: Dirs, s: Store, events: seq<StoreEvent>)
    decreases |events|
  {
    events == [] || (!Spoils(d, s, events[0]) && NeverSpoils(d, StoreNext(d, s, events[0]), events[1..]))
  }

  /** Over runs: at every point, crashes included, every final path is absent or
      whole, exactly if no event of the run spoils one. */
  lemma {:induction false} AlwaysWholeIff(d: Dirs, s: Store, events: seq<StoreEvent>)
    requires StoreOk(d, s) && Whole(d, s.disk)
    ensures AlwaysWhole(d, s, events) <==> NeverSpoils(d, s, events)
    decreases |events|
  {
    if events != [] {
      StoreNextOk(d, s, events[0]);
      WholeIff(d, s, events[0]);
      if !Spoils(d, s, events[0]) {
        AlwaysWholeIff(d, StoreNext(d, s, events[0]), events[1..]);
      }
    }
  }

  // ------------------------------------------------------------ when nothing spoils

  /** A rename that moves another Put's file, because the name was drawn again. */
  predicate Stolen(s: Store, e: StoreEvent) {
    && e.Go? && !e.fails && e.pid in s.puts && s.puts[e.pid].Rename?
    && s.puts[e.pid].tmp in s.disk.dir && s.disk.dir[s.puts[e.pid].tmp] != s.puts[e.pid].inode
  }

  /** No file still being written stands under a final name. */
  ghost predicate Hidden(d: Dirs, s: Store) {
    forall pid, p | pid in s.puts && s.puts[pid].Write? && IsFinal(d, p) :: !FileIs(s.disk, p, s.puts[pid].inode)
  }

  ghost predicate NeverStolen(d: Dirs, s: Store, events: seq<StoreEvent>)
    decreases |events|
  {
    events == [] || (!Stolen(s, events[0]) && NeverStolen(d, StoreNext(d, s, events[0]), events[1..]))
  }

  /** From such a state only a stolen file of other bytes can spoil. */
  lemma SpoilsIffStolen(d: Dirs, s: Store, e: StoreEvent)
    requires StoreOk(d, s) && Hidden(d, s)
    ensures Spoils(d, s, e) <==> Stolen(s, e) && !HashesTo(d, s.disk, s.puts[e.pid].tmp, s.puts[e.pid].oid)
  {
    if e.Go? && e.pid in s.puts {
      var p := s.puts[e.pid];
      assert PutterOk(d, s.disk, p);
      if p.Rename? {
        CopySucceedsIff(d.sha, p.body, p.size, p.oid);
      } else if p.Write? {
        forall oid | ValidOid(oid) ensures !FileIs(s.disk, FinalPath(d, oid), p.inode) {
          FinalIsFinal(d, oid);
        }
      }
    }
  }

  lemma RenameStaysHidden(d: Dirs, s: Store, pid: nat, fails: bool)
    requires StoreOk(d, s) && Hidden(d, s) && pid in s.puts && s.puts[pid].Rename? && !Stolen(s, Go(pid, "", fails))
    ensures Hidden(d, After(s, pid, RenameStep(d, s.disk, s.puts[pid], fails)))
  {
    var p := s.puts[pid];
    assert PutterOk(d, s.disk, p);
    var t := After(s, pid, RenameStep(d, s.disk, p, fails));
    forall other, q | other in t.puts && t.puts[other].Write? && IsFinal(d, q) ensures !FileIs(t.disk, q, t.puts[other].inode) {
      OthersFile(d, s, pid, other);
      assert !FileIs(s.disk, q, s.puts[other].inode);
    }
  }

  /** A step that puts no file under a final name and opens only new ones. */
  lemma StaysHidden(d: Dirs, s: Store, pid: nat, disk': Disk, p': Putter)
    requires Hidden(d, s) && pid in s.puts
    requires forall q | q in disk'.dir && IsFinal(d, q) :: q in s.disk.dir && disk'.dir[q] == s.disk.dir[q] && s.disk.dir[q] in s.disk.data
    requires p'.Write? ==> (s.puts[pid].Write? && p'.inode == s.puts[pid].inode) || p'.inode !in s.disk.data
    ensures Hidden(d, After(s, pid, (disk', p')))
  {
    var t := After(s, pid, (disk', p'));
    forall other, q | other in t.puts && t.puts[other].Write? && IsFinal(d, q) ensures !FileIs(t.disk, q, t.puts[other].inode) {
      if other != pid || s.puts[pid].Write? { assert !FileIs(s.disk, q, s.puts[other].inode); }
    }
  }

  lemma GoStaysHidden(d: Dirs, s: Store, pid: nat, suffix: string, fails: bool)
    requires StoreOk(d, s) && Hidden(d, s) && pid in s.puts && !Stolen(s, Go(pid, suffix, fails))
    ensures Hidden(d, StoreNext(d, s, Go(pid, suffix, fails)))
  {
    var p := s.puts[pid];
    assert PutterOk(d, s.disk, p);
    if p.Rename? {
      RenameStaysHidden(d, s, pid, fails);
    } else {
      if Digits(suffix) { TempIsTemp(d, suffix); }
      if p.Write? { WriteShape(d, s.disk, p, fails); }
      StaysHidden(d, s, pid, PutterStep(d, s.disk, p, suffix, fails).0, PutterStep(d, s.disk, p, suffix, fails).1);
    }
  }

  lemma NextStaysHidden(d: Dirs, s: Store, e: StoreEvent)
    requires StoreOk(d, s) && Hidden(d, s) && !Stolen(s, e)
    ensures Hidden(d, StoreNext(d, s, e))
  {
    match e
    case Go(pid, suffix, fails) => if pid in s.puts { GoStaysHidden(d, s, pid, suffix, fails); }
    case _ =>
      var t := StoreNext(d, s, e);
      forall pid, p | pid in t.puts && t.puts[pid].Write? && IsFinal(d, p) ensures !FileIs(t.disk, p, t.puts[pid].inode) {
        assert !FileIs(s.disk, p, s.puts[pid].inode);
      }
  }

  lemma {:induction false} NeverStolenNeverSpoils(d: Dirs, s: Store, events: seq<StoreEvent>)
    requires StoreOk(d, s) && Hidden(d, s) && NeverStolen(d, s, events)
    ensures NeverSpoils(d, s, events) && Hidden(d, StoreRun(d, s, events))
    decreases |events|
  {
    if events != [] {
      StoreNextOk(d, s, events[0]);
      SpoilsIffStolen(d, s, events[0]);
      NextStaysHidden(d, s, events[0]);
      NeverStolenNeverSpoils(d, StoreNext(d, s, events[0]), events[1..]);
    }
  }

  /** Runs in which no rename moves another Put's file: at every point, crashes
      included, each final path is absent or complete. */
  lemma FinalFilesAreWhole(d: Dirs, events: seq<StoreEvent>)
    requires NeverStolen(d, EMPTY_STORE, events)
    ensures AlwaysWhole(d, EMPTY_STORE, events)
  {
    NeverStolenNeverSpoils(d, EMPTY_STORE, events);
    AlwaysWholeIff(d, EMPTY_STORE, events);
  }

  // ------------------------------------------------------------ names drawn afresh

  /** CreateTemp draws a name that a live Put still goes by: one that has renamed
      its file but not yet run its deferred removal, or lost it. */
  ghost predicate Reuses(d: Dirs, s: Store, e: StoreEvent) {
    && e.Go? && !e.fails && e.pid in s.puts && s.puts[e.pid].CreateTemp? && Digits(e.suffix)
    && TempPath(d, e.suffix) !in s.disk.dir
    && exists other :: other in s.puts && HoldsName(s.puts[other], TempPath(d, e.suffix))
  }

  ghost predicate FreshNames(d: Dirs, s: Store, events: seq<StoreEvent>)
    decreases |events|
  {
    events == [] || (!Reuses(d, s, events[0]) && FreshNames(d, StoreNext(d, s, events[0]), events[1..]))
  }

  /** No two live Puts go by the same name, and a name means its Put's file. */
  ghost predicate NamesApart(s: Store) {
    && (forall a, b, tmp | a in s.puts && b in s.puts && HoldsName(s.puts[a], tmp) && HoldsName(s.puts[b], tmp) :: a == b)
    && (forall pid | pid in s.puts && (s.puts[pid].Write? || s.puts[pid].Rename?) && s.puts[pid].tmp in s.disk.dir ::
          s.disk.dir[s.puts[pid].tmp] == s.puts[pid].inode)
  }

  lemma NextStaysApart(d: Dirs, s: Store, e: StoreEvent)
    requires StoreOk(d, s) && NamesApart(s) && !Reuses(d, s, e)
    ensures NamesApart(StoreNext(d, s, e)) && !Stolen(s, e)
  {
    match e
    case Go(pid, suffix, fails) => if pid in s.puts { GoStaysApart(d, s, pid, suffix, fails); }
    case Unlink(_) =>
    case _ =>
  }

  lemma ApartAfter(s: Store, pid: nat, disk': Disk, p': Putter)
    requires NamesApart(s) && pid in s.puts
    requires forall tmp :: HoldsName(p', tmp) ==> forall other | other in s.puts && other != pid :: !HoldsName(s.puts[other], tmp)
    requires (p'.Write? || p'.Rename?) && p'.tmp in disk'.dir ==> disk'.dir[p'.tmp] == p'.inode
    requires forall other | other in s.puts && other != pid && (s.puts[other].Write? || s.puts[other].Rename?) && s.puts[other].tmp in disk'.dir ::
               s.puts[other].tmp in s.disk.dir && disk'.dir[s.puts[other].tmp] == s.disk.dir[s.puts[other].tmp]
    ensures NamesApart(After(s, pid, (disk', p')))
  {}

  /** A call of one Put leaves the temporary names of the others. */
  lemma OtherNamesStay(d: Dirs, s: Store, pid: nat, suffix: string, fails: bool, other: nat)
    requires StoreOk(d, s) && NamesApart(s) && pid in s.puts && !Reuses(d, s, Go(pid, suffix, fails))
    requires other in s.puts && other != pid && (s.puts[other].Write? || s.puts[other].Rename?)
    ensures var disk', tmp := PutterStep(d, s.disk, s.puts[pid], suffix, fails).0, s.puts[other].tmp;
            tmp in disk'.dir ==> tmp in s.disk.dir && disk'.dir[tmp] == s.disk.dir[tmp]
  {
    var p := s.puts[pid];
    assert PutterOk(d, s.disk, p) && PutterOk(d, s.disk, s.puts[other]) && HoldsName(s.puts[other], s.puts[other].tmp);
    if p.Write? { WriteShape(d, s.disk, p, fails); }
    if p.Rename? { FinalIsFinal(d, p.oid); }
  }

  /** A Put goes by the name it went by before, or by one that no other does. */
  lemma OwnNameStays(d: Dirs, s: Store, pid: nat, suffix: string, fails: bool)
    requires StoreOk(d, s) && NamesApart(s) && pid in s.puts && !Reuses(d, s, Go(pid, suffix, fails))
    ensures var (disk', p') := PutterStep(d, s.disk, s.puts[pid], suffix, fails);
            && ((p'.Write? || p'.Rename?) && p'.tmp in disk'.dir ==> disk'.dir[p'.tmp] == p'.inode)
            && forall tmp :: HoldsName(p', tmp) ==> forall other | other in s.puts && other != pid :: !HoldsName(s.puts[other], tmp)
  {
    var p := s.puts[pid];
    assert PutterOk(d, s.disk, p);
    if p.Write? { WriteShape(d, s.disk, p, fails); }
  }

  lemma GoStaysApart(d: Dirs, s: Store, pid: nat, suffix: string, fails: bool)
    requires StoreOk(d, s) && NamesApart(s) && pid in s.puts && !Reuses(d, s, Go(pid, suffix, fails))
    ensures NamesApart(StoreNext(d, s, Go(pid, suffix, fails)))
  {
    assert PutterOk(d, s.disk, s.puts[pid]);
    var (disk', p') := PutterStep(d, s.disk, s.puts[pid], suffix, fails);
    OwnNameStays(d, s, pid, suffix, fails);
    forall other | other in s.puts && other != pid && (s.puts[other].Write? || s.puts[other].Rename?) && s.puts[other].tmp in disk'.dir
      ensures s.puts[other].tmp in s.disk.dir && disk'.dir[s.puts[other].tmp] == s.disk.dir[s.puts[other].tmp]
    {
      OtherNamesStay(d, s, pid, suffix, fails, other);
    }
    ApartAfter(s, pid, disk', p');
  }

  /** When no CreateTemp draws a name that a live Put still goes by, no file is
      ever stolen; this asks more than FinalFilesAreWhole needs. */
  lemma {:induction false} FreshNamesNeverStolen(d: Dirs, s: Store, events: seq<StoreEvent>)
    requires StoreOk(d, s) && NamesApart(s) && FreshNames(d, s, events)
    ensures NeverStolen(d, s, events)
    decreases |events|
  {
    if events != [] {
      StoreNextOk(d, s, events[0]);
      NextStaysApart(d, s, events[0]);
      FreshNamesNeverStolen(d, StoreNext(d, s, events[0]), events[1..]);
    }
  }

  // ------------------------------------------------------------ when a name is drawn twice

  lemma {:induction false} StoreRunAppend(d: Dirs, s: Store, a: seq<StoreEvent>, b: seq<StoreEvent>)
    ensures StoreRun(d, s, a + b) == StoreRun(d, StoreRun(d, s, a), b)
    decreases |a|
  {
    if a == [] {
      assert a + b == b;
    } else {
      assert (a + b)[0] == a[0] && (a + b)[1..] == a[1..] + b;
      StoreRunAppend(d, StoreNext(d, s, a[0]), a[1..], b);
    }
  }

  lemma StoreRunSnoc(d: Dirs, s: Store, events: seq<StoreEvent>, e: StoreEvent)
    ensures StoreRun(d, s, events + [e]) == StoreNext(d, StoreRun(d, s, events), e)
  {
    StoreRunAppend(d, s, events, [e]);
    assert [e][1..] == [];
  }

  /** Three Puts of one object have passed their Stat. */
  lemma ThreeBegin(d: Dirs, oid: Oid, size: int, body: seq<Chunk>) returns (events: seq<StoreEvent>)
    requires ValidOid(oid)
    ensures StoreRun(d, EMPTY_STORE, events) ==
            Store(EMPTY_STORE.disk, map[1 := CreateTemp(oid, size, body), 2 := CreateTemp(oid, size, body), 3 := CreateTemp(oid, size, body)])
  {
    events := [];
    for i := 1 to 4
      invariant StoreRun(d, EMPTY_STORE, events).disk == EMPTY_STORE.disk
      invariant forall pid: nat :: pid in StoreRun(d, EMPTY_STORE, events).puts <==> 1 <= pid < i
      invariant forall pid | pid in StoreRun(d, EMPTY_STORE, events).puts ::
                  StoreRun(d, EMPTY_STORE, events).puts[pid] == CreateTemp(oid, size, body)
    {
      StoreRunSnoc(d, EMPTY_STORE, events, Begin(i, oid, size, body));
      events := events + [Begin(i, oid, size, body)];
      StoreRunSnoc(d, EMPTY_STORE, events, Go(i, "", false));
      events := events + [Go(i, "", false)];
    }
  }

  /** A Put that draws the name "1" and writes its whole body of one chunk. */
  lemma DrawsAndWrites(d: Dirs, s: Store, pid: nat, data: Bytes)
    requires var oid, body := d.sha(data), [Chunk(data, Some(Eof))];
             ValidOid(oid) && pid in s.puts && s.puts[pid] == CreateTemp(oid, |data|, body)
    requires TempPath(d, "1") !in s.disk.dir
    ensures var go, tmp, n := Go(pid, "1", false), TempPath(d, "1"), s.disk.nextInode;
            StoreRun(d, s, [go] + [go]) ==
            Store(s.disk.(dir := s.disk.dir[tmp := n], data := s.disk.data[n := data], nextInode := n + 1),
                  s.puts[pid := Rename(d.sha(data), |data|, [Chunk(data, Some(Eof))], tmp, n)])
  {
    var go, n := Go(pid, "1", false), s.disk.nextInode;
    assert [] + data == data;
    var s1 := StoreNext(d, s, go);
    var s2 := StoreNext(d, s1, go);
    assert s2.disk.data == s.disk.data[n := data];
    assert [] + [go] == [go];
    StoreRunSnoc(d, s, [], go);
    StoreRunSnoc(d, s, [go], go);
  }

  lemma OnlyFileRenamed(d: Dirs, s: Store, pid: nat, tmp: Path, n: nat)
    requires pid in s.puts && s.puts[pid].Rename? && ValidOid(s.puts[pid].oid) && s.puts[pid].tmp == tmp
    requires s.disk.dir == map[tmp := n]
    ensures var p, t := s.puts[pid], StoreNext(d, s, Go(pid, "1", false));
            && t.disk == s.disk.(dir := map[FinalPath(d, p.oid) := n])
            && t.puts == s.puts[pid := RemoveTemp(p.oid, p.size, tmp, None)]
  {
    assert Unlinked(s.disk, tmp).dir == map[];
  }

  function Waiting(d: Dirs, data: Bytes): Putter {
    CreateTemp(d.sha(data), |data|, [Chunk(data, Some(Eof))])
  }

  /** The first Put stores its file and is about to run its deferred removal;
      the second has drawn the same temporary name and written its own file. */
  lemma SecondDraws(d: Dirs, s: Store, data: Bytes) returns (t: Store, events: seq<StoreEvent>)
    requires ValidOid(d.sha(data))
    requires s == Store(EMPTY_STORE.disk, map[1 := Waiting(d, data), 2 := Waiting(d, data), 3 := Waiting(d, data)])
    ensures t == StoreRun(d, s, events)
    ensures var oid, tmp, body := d.sha(data), TempPath(d, "1"), [Chunk(data, Some(Eof))];
            && t.disk.dir == map[FinalPath(d, oid) := 0, tmp := 1] && t.disk.nextInode == 2
            && t.puts == map[1 := RemoveTemp(oid, |data|, tmp, None), 2 := Rename(oid, |data|, body, tmp, 1), 3 := Waiting(d, data)]
  {
    var g1, g2 := Go(1, "1", false), Go(2, "1", false);
    TempIsNotFinal(d, "1", d.sha(data));
    DrawsAndWrites(d, s, 1, data);
    var s2 := StoreRun(d, s, [g1] + [g1]);
    OnlyFileRenamed(d, s2, 1, TempPath(d, "1"), 0);
    var s3 := StoreNext(d, s2, g1);
    StoreRunSnoc(d, s, [g1] + [g1], g1);
    DrawsAndWrites(d, s3, 2, data);
    t := StoreRun(d, s3, [g2] + [g2]);
    StoreRunAppend(d, s, [g1] + [g1] + [g1], [g2] + [g2]);
    events := [g1] + [g1] + [g1] + ([g2] + [g2]);
  }

  /** A theft that spoils: the first Put's deferred removal takes the second
      one's file away, a third Put draws the name again, and the second renames
      the third's empty file over the complete object. */
  lemma ReusedNameCorrupts(d: Dirs, data: Bytes) returns (before: seq<StoreEvent>, after: seq<StoreEvent>)
    requires ValidOid(d.sha(data)) && d.sha([]) != d.sha(data)
    ensures var final := FinalPath(d, d.sha(data));
            var s := StoreRun(d, StoreRun(d, EMPTY_STORE, before), after);
            && final in s.disk.dir && s.disk.dir[final] in s.disk.data
            && s.disk.data[s.disk.dir[final]] == [] && d.sha(s.disk.data[s.disk.dir[final]]) != d.sha(data)
  {
    var oid, tmp := d.sha(data), TempPath(d, "1");
    before := ThreeBegin(d, oid, |data|, [Chunk(data, Some(Eof))]);
    var s := StoreRun(d, EMPTY_STORE, before);
    var t, first := SecondDraws(d, s, data);
    TempIsNotFinal(d, "1", oid);
    var t1 := StoreNext(d, t, Go(1, "", false));
    assert t1.disk.dir == map[FinalPath(d, oid) := 0];
    var t2 := StoreNext(d, t1, Go(3, "1", false));
    var t3 := StoreNext(d, t2, Go(2, "", false));
    after := first + [Go(1, "", false)] + [Go(3, "1", false)] + [Go(2, "", false)];
    StoreRunSnoc(d, s, first, Go(1, "", false));
    StoreRunSnoc(d, s, first + [Go(1, "", false)], Go(3, "1", false));
    StoreRunSnoc(d, s, first + [Go(1, "", false)] + [Go(3, "1", false)], Go(2, "", false));
  }
}
