/** The handlers of uploads and verifies, call by call. What is proved of each is
    sequential: with nothing running between its calls it is a run of its request
    in the state machine, for any faults of its calls. */
module Handlers {
  import opened Wrappers
  import opened Uris
  import opened Streams
  import opened Tables
  import opened Lifecycle
  import opened Database
  import opened FileStore
  import opened Filesystem
  import opened Atomicity

  /** The next step of a request on its own. */
  ghost function Step(cfg: Config, r: (World, Proc), c: Choice): (World, Proc) {
    if Shaped(r.1) then Act(cfg, r.0, r.1, c) else r
  }

  ghost function ThreeSteps(cfg: Config, w: World, p: Proc, a: Choice, b: Choice, c: Choice): (World, Proc) {
    Step(cfg, Step(cfg, Step(cfg, (w, p), a), b), c)
  }

  /** Three such steps are three events of a run in which nothing else happens. */
  lemma ThreeStepsAreARun(cfg: Config, s: State, pid: nat, a: Choice, b: Choice, c: Choice)
    requires pid in s.procs
    ensures var (w, p) := ThreeSteps(cfg, s.world, s.procs[pid], a, b, c);
            Run(cfg, s, [Advance(pid, a)] + [Advance(pid, b)] + [Advance(pid, c)]) == State(w, s.procs[pid := p])
  {
    StepIsAnEvent(cfg, s, pid, a);
    var s1 := Run(cfg, s, [Advance(pid, a)]);
    StepIsAnEvent(cfg, s1, pid, b);
    var s2 := Run(cfg, s1, [Advance(pid, b)]);
    StepIsAnEvent(cfg, s2, pid, c);
    RunAppend(cfg, s, [Advance(pid, a)], [Advance(pid, b)]);
    RunAppend(cfg, s, [Advance(pid, a)] + [Advance(pid, b)], [Advance(pid, c)]);
  }

  lemma StepIsAnEvent(cfg: Config, s: State, pid: nat, c: Choice)
    requires pid in s.procs
    ensures var (w, p) := Step(cfg, (s.world, s.procs[pid]), c);
            Run(cfg, s, [Advance(pid, c)]) == State(w, s.procs[pid := p])
  {
    assert [Advance(pid, c)][1..] == [];
    if !Shaped(s.procs[pid]) {
      assert s.procs[pid := s.procs[pid]] == s.procs;
    }
  }

  /** The status of a reply. */
  function StatusOf(reply: Reply): int {
    match reply
    case Code(status) => status
    case NoContent(_, _, _) => 204
    case Redirect => 307
    case Body(_, _) => 200
    case BatchReply(_, _, _, _) => 200
    case Swept => 0
  }

  function Choosing(now: int, fails: bool): Choice {
    Choice(now, if fails then Fails else NoFault, [], {})
  }

  /** The request ends with this status and leaves the world like this. */
  ghost predicate Ends(r: (World, Proc), w: World, status: int) {
    r.0 == w && r.1.Finished? && StatusOf(r.1.reply) == status
  }

  // ------------------------------------------------------------ a bucket

  datatype HeadError = NotFound | HeadFailed

  class S3Backend {
    const b: Backend
    var objects: map<Uri, Bytes>
    var tickets: set<Ticket>

    constructor (b: Backend, objects: map<Uri, Bytes>)
      requires b.Bucket?
      ensures this.b == b && this.objects == objects && tickets == {}
    {
      this.b := b;
      this.objects := objects;
      tickets := {};
    }

    method Head(uri: Uri, fails: bool) returns (r: Result<int, HeadError>)
      ensures r == if !Resolves(b, uri) || fails then Err(HeadFailed)
                   else if uri !in objects then Err(NotFound)
                   else Ok(|objects[uri]|)
    {
      if !Resolves(b, uri) || fails {
        return Err(HeadFailed);
      }
      if uri !in objects {
        return Err(NotFound);
      }
      r := Ok(|objects[uri]|);
    }

    method Delete(uri: Uri, fails: bool) returns (ok: bool)
      modifies this`objects
      ensures ok <==> Resolves(b, uri) && !fails
      ensures objects == if ok then Removed(old(objects), uri) else old(objects)
    {
      ok := Resolves(b, uri) && !fails;
      if ok {
        objects := objects - {uri};
      }
    }

    method PresignPut(oid: Oid, size: int, fails: bool) returns (ok: bool)
      requires b.Bucket?
      modifies this`tickets
      ensures ok <==> !fails
      ensures tickets == if ok then old(tickets) + {Ticket(UriOf(b, oid), oid, size)} else old(tickets)
    {
      ok := !fails;
      if ok {
        tickets := tickets + {Ticket(UriOf(b, oid), oid, size)};
      }
    }
  }

  // ------------------------------------------------------------ presigned requests

  lemma SignRuns(cfg: Config, w: World, b: Backend, oid: Oid, size: int, now: int, lookupFails: bool, insertFails: bool, presignFails: bool)
    requires b.Bucket? && ValidOid(oid)
    ensures ThreeSteps(cfg, w, SignLookup(b, oid, size), Choosing(now, lookupFails), Choosing(now, insertFails), Choosing(now, presignFails)) ==
            if lookupFails then (w, Finished(Code(500)))
            else if VerifiedRow(w.db, oid).Some? then (w, Finished(Code(200)))
            else if insertFails then (w, Finished(Code(500)))
            else
              var w' := w.(db := PendingTx(w.db, oid, now));
              if presignFails then (w', Finished(Code(500)))
              else (w'.(tickets := w.tickets + {Ticket(UriOf(b, oid), oid, size)}), Finished(Redirect))
  {}

  /** serveUploadPresign. */
  method ServeUploadPresign(cfg: Config, db: Database, backend: S3Backend, oid: Oid, size: int, now: int,
                            lookupFails: bool, insertFails: bool, presignFails: bool) returns (status: int)
    requires backend.b.Bucket? && ValidOid(oid) && UniqueOids(db.Snapshot())
    modifies db, backend`tickets
    ensures var w := World(old(db.Snapshot()), old(backend.objects), old(backend.tickets));
            var r := ThreeSteps(cfg, w, SignLookup(backend.b, oid, size), Choosing(now, lookupFails), Choosing(now, insertFails), Choosing(now, presignFails));
            Ends(r, World(db.Snapshot(), backend.objects, backend.tickets), status)
  {
    SignRuns(cfg, World(db.Snapshot(), backend.objects, backend.tickets), backend.b, oid, size, now, lookupFails, insertFails, presignFails);
    if lookupFails {
      return 500;
    }
    var existing := db.GetObjectByOid(oid);
    if existing.Ok? && existing.value.verifiedAt.Some? {
      return 200;
    }
    if insertFails {
      return 500;
    }
    db.InsertPendingObject(oid, now);
    var ok := backend.PresignPut(oid, size, presignFails);
    status := if ok then 307 else 500;
  }

  /** A transaction's outcome followed by the loser's deletion. */
  ghost function AfterTx(w: World, tx: TxResult, fails: bool, deleteFails: bool, repo: string, oid: Oid, size: int, uri: Uri): (World, Proc) {
    if fails then (w, Finished(Code(500)))
    else
      match tx.1
      case Err(_) => (w.(db := tx.0), Finished(Code(500)))
      case Ok(stored) =>
        (World(tx.0, if stored != uri && !deleteFails then Removed(w.store, uri) else w.store, w.tickets), Finished(NoContent(repo, oid, size)))
  }

  lemma VerifyRuns(cfg: Config, w: World, repo: string, b: Backend, oid: Oid, size: int, now: int, headFails: bool, markFails: bool, deleteFails: bool)
    requires ValidOid(oid)
    ensures var uri := UriOf(b, oid);
            ThreeSteps(cfg, w, HeadCheck(repo, b, oid, size), Choosing(now, headFails), Choosing(now, markFails), Choosing(now, deleteFails)) ==
            if headFails then (w, Finished(Code(500)))
            else if uri !in w.store || |w.store[uri]| != size then (w, Finished(Code(422)))
            else AfterTx(w, VerifyTx(w.db, repo, oid, size, uri, now), markFails, deleteFails, repo, oid, size, uri)
  {}

  /** serveVerifyPresign. `failing` is the statement of VerifyObject that fails. */
  method ServeVerifyPresign(cfg: Config, db: Database, backend: S3Backend, repo: string, oid: Oid, size: int, now: int,
                            headFails: bool, failing: nat, deleteFails: bool) returns (status: int, ghost markFails: bool)
    requires WellFormed(backend.b) && backend.b.Bucket? && ValidOid(oid) && UniqueOids(db.Snapshot())
    modifies db, backend`objects
    ensures markFails ==> failing > 0
    ensures var w := World(old(db.Snapshot()), old(backend.objects), old(backend.tickets));
            var r := ThreeSteps(cfg, w, HeadCheck(repo, backend.b, oid, size), Choosing(now, headFails), Choosing(now, markFails), Choosing(now, deleteFails));
            Ends(r, World(db.Snapshot(), backend.objects, backend.tickets), status)
  {
    ghost var w := World(db.Snapshot(), backend.objects, backend.tickets);
    VerifyRuns(cfg, w, repo, backend.b, oid, size, now, headFails, false, deleteFails);
    VerifyRuns(cfg, w, repo, backend.b, oid, size, now, headFails, true, deleteFails);
    KeyRoundTrip(backend.b.scheme, backend.b.bucket, oid);
    markFails := false;
    var uri := UriOf(backend.b, oid);
    var head := backend.Head(uri, headFails);
    if head.Err? {
      return if head.error == NotFound then 422 else 500, markFails;
    }
    if head.value != size {
      return 422, markFails;
    }
    var r := db.VerifyObject(repo, oid, size, uri, now, failing);
    if r.RolledBack? {
      return 500, true;
    }
    if r.result.Err? {
      return 500, markFails;
    }
    if r.result.value != uri {
      var _ := backend.Delete(uri, deleteFails);
    }
    status := 204;
  }

  // ------------------------------------------------------------ proxied requests

  /** serveVerifyProxy. */
  method ServeVerifyProxy(cfg: Config, db: Database, store: map<Uri, Bytes>, repo: string, oid: Oid, size: int, now: int, fails: bool) returns (status: int)
    requires ValidOid(oid) && UniqueOids(db.Snapshot())
    ensures var w := World(db.Snapshot(), store, {});
            Ends(Step(cfg, (w, ProxyCheck(repo, oid, size)), Choosing(now, fails)), w, status)
  {
    if fails {
      return 500;
    }
    var row := db.GetRepoObjectByOid(repo, oid);
    if row.Err? {
      return 404;
    }
    if row.value.size.GetOr(-1) != size {
      return 422;
    }
    status := 204;
  }

  /** Files other than those of one object and one temporary name stay. */
  lemma FramedFiles(b: Backend, d: Dirs, disk: Disk, disk': Disk, tmp: Path, oid: Oid, store: map<Uri, Bytes>, store': map<Uri, Bytes>)
    requires ValidOid(oid) && SameFiles(b, d, disk, store) && !IsFinal(d, tmp)
    requires forall p | p != FinalPath(d, oid) && p != tmp :: p in disk'.dir <==> p in disk.dir
    requires forall p | p != FinalPath(d, oid) && p in disk.dir && p in disk'.dir :: disk'.dir[p] == disk.dir[p]
    requires forall i | i in disk.data :: i in disk'.data && disk'.data[i] == disk.data[i]
    requires store' == store || (UriOf(b, oid) in store' && store' == store[UriOf(b, oid) := store'[UriOf(b, oid)]])
    requires FinalPath(d, oid) in disk'.dir <==> UriOf(b, oid) in store'
    requires FinalPath(d, oid) in disk'.dir ==> SameBytes(disk', FinalPath(d, oid), store', UriOf(b, oid))
    ensures SameFiles(b, d, disk', store')
  {
    forall other | ValidOid(other)
      ensures FinalPath(d, other) in disk'.dir <==> UriOf(b, other) in store'
      ensures FinalPath(d, other) in disk'.dir ==> SameBytes(disk', FinalPath(d, other), store', UriOf(b, other))
    {
      if other != oid {
        FinalIsFinal(d, other);
        if FinalPath(d, other) == FinalPath(d, oid) { FinalDeterminesOid(d, other, oid); }
        if UriOf(b, other) == UriOf(b, oid) { UriDeterminesOid(b, other, b, oid); }
        assert FinalPath(d, other) in disk.dir ==> SameBytes(disk, FinalPath(d, other), store, UriOf(b, other));
      }
    }
  }

  /** The two steps of Put, or one when the file is there. */
  ghost function PutRun(cfg: Config, w: World, p: Proc, stat: Choice, copy: Choice): (World, Proc) {
    var r := Step(cfg, (w, p), stat);
    if r.1.PutLink? then r else Step(cfg, r, copy)
  }

  lemma PutRuns(cfg: Config, w: World, repo: string, b: Backend, oid: Oid, size: int, body: seq<Chunk>, now: int, statFails: bool, copyFails: bool)
    requires ValidOid(oid)
    ensures var uri := UriOf(b, oid);
            PutRun(cfg, w, PutStat(repo, b, oid, size, body), Choosing(now, statFails), Choosing(now, copyFails)) ==
            if !statFails && uri in w.store then (w, PutLink(repo, oid, size, uri))
            else if copyFails then (w, Finished(Code(500)))
            else if CopyResult(cfg.sha, body, size, oid).Some? then (w, Finished(Code(CopyStatus(CopyResult(cfg.sha, body, size, oid).value))))
            else (w.(store := w.store[uri := Flow(body).0]), PutLink(repo, oid, size, uri))
  {}

  /** The readers' part of a Put: which error it stops with. */
  lemma PutErrors(d: Dirs, disk: Disk, oid: Oid, size: int, body: seq<Chunk>, suffix: string, failing: Failing)
    requires ValidOid(oid)
    ensures var r := PutResult(d, disk, oid, size, body, suffix, failing).1;
            var found := AtStat !in failing.stages && FinalPath(d, oid) in disk.dir;
            && (found ==> r == Ok(d.scheme + FinalPath(d, oid)))
            && (!found && r.Ok? ==> CopyResult(d.sha, body, size, oid).None? && r.value == d.scheme + FinalPath(d, oid))
            && (r.Err? && !r.error.Stopped? ==> CopyResult(d.sha, body, size, oid) == Cause(r) && Cause(r).Some?)
            && (r.Err? && r.error.Stopped? ==> Cause(r) == Some(OtherError))
  {}

  /** What a whole Put does to the objects of its backend. */
  lemma PutLooksAtomic(cfg: Config, w: World, repo: string, b: Backend, d: Dirs, disk: Disk, oid: Oid, size: int, body: seq<Chunk>, suffix: string, failing: Failing, now: int)
    requires Matches(cfg, b, d) && b.scheme == d.scheme && SameFiles(b, d, disk, w.store) && Tidy(disk)
    requires ValidOid(oid) && Digits(suffix) && TempPath(d, suffix) !in disk.dir
    ensures var (disk', r) := PutResult(d, disk, oid, size, body, suffix, failing);
            var (w', p) := PutRun(cfg, w, PutStat(repo, b, oid, size, body), Choosing(now, AtStat in failing.stages), Choosing(now, r.Err? && r.error.Stopped?));
            && SameFiles(b, d, disk', w'.store) && w' == w.(store := w'.store)
            && p == SeenResult(b, repo, oid, size, Cause(r))
            && (r.Ok? ==> r.value == UriOf(b, oid))
  {
    var (disk', r) := PutResult(d, disk, oid, size, body, suffix, failing);
    var stopped := r.Err? && r.error.Stopped?;
    var w' := PutRun(cfg, w, PutStat(repo, b, oid, size, body), Choosing(now, AtStat in failing.stages), Choosing(now, stopped)).0;
    assert FinalPath(d, oid) in disk.dir <==> UriOf(b, oid) in w.store;
    PutRuns(cfg, w, repo, b, oid, size, body, now, AtStat in failing.stages, stopped);
    PutErrors(d, disk, oid, size, body, suffix, failing);
    PutFiles(b, d, disk, oid, size, body, suffix, failing, w.store, w'.store);
  }

  lemma PutFiles(b: Backend, d: Dirs, disk: Disk, oid: Oid, size: int, body: seq<Chunk>, suffix: string, failing: Failing, store: map<Uri, Bytes>, store': map<Uri, Bytes>)
    requires SameFiles(b, d, disk, store) && Tidy(disk)
    requires ValidOid(oid) && Digits(suffix) && TempPath(d, suffix) !in disk.dir
    requires var found, r := AtStat !in failing.stages && FinalPath(d, oid) in disk.dir, PutResult(d, disk, oid, size, body, suffix, failing).1;
             store' == if r.Ok? && !found then store[UriOf(b, oid) := Flow(body).0] else store
    ensures SameFiles(b, d, PutResult(d, disk, oid, size, body, suffix, failing).0, store')
  {
    var disk' := PutResult(d, disk, oid, size, body, suffix, failing).0;
    assert FinalPath(d, oid) in disk.dir <==> UriOf(b, oid) in store;
    assert FinalPath(d, oid) in disk.dir ==> SameBytes(disk, FinalPath(d, oid), store, UriOf(b, oid));
    TempIsTemp(d, suffix);
    PutStores(d, disk, oid, size, body, suffix, failing);
    PutFrame(d, disk, oid, size, body, suffix, failing);
    FramedFiles(b, d, disk, disk', TempPath(d, suffix), oid, store, store');
  }

  lemma LinkRuns(cfg: Config, w: World, repo: string, oid: Oid, size: int, uri: Uri, now: int, linkFails: bool, deleteFails: bool)
    ensures Step(cfg, Step(cfg, (w, PutLink(repo, oid, size, uri)), Choosing(now, linkFails)), Choosing(now, deleteFails)) ==
            AfterTx(w, LinkTx(w.db, repo, oid, size, uri, now), linkFails, deleteFails, repo, oid, size, uri)
  {}

  /** The whole upload as the request's steps in the state machine. */
  ghost function UploadRun(cfg: Config, w: World, p: Proc, stat: Choice, copy: Choice, link: Choice, delete: Choice): (World, Proc) {
    Step(cfg, Step(cfg, PutRun(cfg, w, p, stat, copy), link), delete)
  }

  /** The calls of an upload that failed. */
  datatype UploadFaults = UploadFaults(stat: bool, copy: bool, link: bool)

  /** The first half of serveUploadProxy: the readers and Put. */
  method StoreBody<S(!new)>(cfg: Config, backend: FilesystemBackend, ghost b: Backend, ghost w: World, body: Source, digest: Digest<S>,
                            repo: string, oid: Oid, size: int, now: int, suffix: string, failing: Failing)
    returns (put: Result<Uri, PutError>, ghost copyFails: bool)
    requires Incremental(digest) && cfg.sha == Sha(digest) && Matches(cfg, b, backend.dirs) && b.scheme == backend.dirs.scheme && ValidOid(oid)
    requires Tidy(backend.disk) && SameFiles(b, backend.dirs, backend.disk, w.store)
    requires Digits(suffix) && TempPath(backend.dirs, suffix) !in backend.disk.dir
    modifies backend`disk, body
    ensures copyFails ==> failing != NO_FAILURE
    ensures put.Ok? ==> put.value == UriOf(b, oid)
    ensures var r := PutRun(cfg, w, PutStat(repo, b, oid, size, old(body.script)), Choosing(now, AtStat in failing.stages), Choosing(now, copyFails));
            && r == (w.(store := r.0.store), SeenResult(b, repo, oid, size, Cause(put)))
            && SameFiles(b, backend.dirs, backend.disk, r.0.store)
  {
    PutLooksAtomic(cfg, w, repo, b, backend.dirs, backend.disk, oid, size, body.script, suffix, failing, now);
    PutStopsFor(backend.dirs, backend.disk, oid, size, body.script, suffix, failing);
    var sized := new ExactSizeReader(body, size);
    var reader := new Sha256Reader(sized, digest, oid);
    put := backend.Put(oid, reader, suffix, failing);
    copyFails := put.Err? && put.error.Stopped?;
  }

  /** The second half: LinkObject, and the deletion of the file that lost. */
  method LinkStored(db: Database, backend: FilesystemBackend, ghost b: Backend, ghost w: World, repo: string, oid: Oid, size: int, uri: Uri,
                    now: int, statement: nat, deleteFails: bool) returns (status: int, ghost linkFails: bool)
    requires b == Filesystem(backend.dirs.scheme, backend.dirs.root) && WellFormed(b) && ValidOid(oid) && uri == UriOf(b, oid)
    requires UniqueOids(db.Snapshot()) && w.db == db.Snapshot() && SameFiles(b, backend.dirs, backend.disk, w.store)
    modifies db, backend`disk
    ensures linkFails ==> statement > 0
    ensures var r := AfterTx(w, LinkTx(w.db, repo, oid, size, uri, now), linkFails, deleteFails, repo, oid, size, uri);
            && StatusOf(r.1.reply) == status
            && db.Snapshot() == r.0.db && SameFiles(b, backend.dirs, backend.disk, r.0.store)
  {
    linkFails := false;
    PathRoundTrip(b.scheme, b.root, oid);
    RemovedFiles(b, backend.dirs, backend.disk, oid, w.store);
    var r := db.LinkObject(repo, oid, size, uri, now, statement);
    if r.RolledBack? {
      return 500, true;
    }
    if r.result.Err? {
      return 500, linkFails;
    }
    if r.result.value != uri {
      var _ := backend.Delete(uri, deleteFails);
    }
    status := 204;
  }

  /** serveUploadProxy. `failing`, `statement` and `deleteFails` say which calls
      of Put, which statement of LinkObject and whether Delete fails. */
  method ServeUploadProxy<S(!new)>(cfg: Config, db: Database, backend: FilesystemBackend, ghost b: Backend, ghost w: World,
                                   body: Source, digest: Digest<S>, repo: string, oid: Oid, size: int, now: int,
                                   suffix: string, failing: Failing, statement: nat, deleteFails: bool) returns (status: int, ghost faults: UploadFaults)
    requires Incremental(digest) && cfg.sha == Sha(digest) && cfg.sha == backend.dirs.sha
    requires b == Filesystem(backend.dirs.scheme, backend.dirs.root) && WellFormed(b) && ValidOid(oid)
    requires UniqueOids(db.Snapshot()) && w.db == db.Snapshot()
    requires Tidy(backend.disk) && SameFiles(b, backend.dirs, backend.disk, w.store)
    requires Digits(suffix) && TempPath(backend.dirs, suffix) !in backend.disk.dir
    modifies db, backend`disk, body
    ensures (faults.stat ==> AtStat in failing.stages) && (faults.copy ==> failing != NO_FAILURE) && (faults.link ==> statement > 0)
    ensures var r := UploadRun(cfg, w, PutStat(repo, b, oid, size, old(body.script)), Choosing(now, faults.stat), Choosing(now, faults.copy),
                               Choosing(now, faults.link), Choosing(now, deleteFails));
            && r.1.Finished? && StatusOf(r.1.reply) == status
            && db.Snapshot() == r.0.db && SameFiles(b, backend.dirs, backend.disk, r.0.store)
  {
    ghost var p := PutStat(repo, b, oid, size, body.script);
    var put;
    ghost var copyFails, linkFails := false, false;
    put, copyFails := StoreBody(cfg, backend, b, w, body, digest, repo, oid, size, now, suffix, failing);
    ghost var w1 := PutRun(cfg, w, p, Choosing(now, AtStat in failing.stages), Choosing(now, copyFails)).0;
    if put.Err? {
      status := if put.error.CopyFailed? then CopyStatus(put.error.cause) else 500;
    } else {
      status, linkFails := LinkStored(db, backend, b, w1, repo, oid, size, put.value, now, statement, deleteFails);
      LinkRuns(cfg, w1, repo, oid, size, UriOf(b, oid), now, linkFails, deleteFails);
    }
    faults := UploadFaults(AtStat in failing.stages, copyFails, linkFails);
  }

  const NO_FAILURE: Failing := Failing({}, 0)

  lemma PutStopsFor(d: Dirs, disk: Disk, oid: Oid, size: int, body: seq<Chunk>, suffix: string, failing: Failing)
    requires |oid| >= 4
    ensures var r := PutResult(d, disk, oid, size, body, suffix, failing).1;
            r.Err? && r.error.Stopped? ==> failing != NO_FAILURE
  {}
}
