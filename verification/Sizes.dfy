/** Is the recorded size of an object the length of its bytes? For bucket
    objects always; for files exactly as long as no LinkObject records, for a new
    object, a size that the file it was let through by does not have. */
module Sizes {
  import opened Wrappers
  import opened Uris
  import opened Tables
  import opened Sweeps
  import opened Streams
  import opened Lifecycle
  import opened Safety
  import opened Steps
  import opened Guarantees

  ghost predicate CollisionFree(sha: Bytes -> Oid) {
    forall a: Bytes, b: Bytes :: sha(a) == sha(b) ==> a == b
  }

  /** Some bytes of this length hash to the id; without collisions, the only ones. */
  ghost predicate HasLength(cfg: Config, oid: Oid, size: int) {
    exists data: Bytes :: cfg.sha(data) == oid && |data| == size
  }

  /** Rows named by one kind of backend carry the length of what hashes to their id. */
  ghost predicate HonestRows(cfg: Config, db: Tables, bucket: bool) {
    forall id | id in db.objects && !Pending(db.objects[id]) && NamedBy(cfg, db.objects[id].uri.GetOr(""), bucket) ::
      HasLength(cfg, db.objects[id].oid, db.objects[id].size.GetOr(-1))
  }

  /** Every verified row with a file records the length of that file. */
  ghost predicate FileSizesTrue(cfg: Config, w: World) {
    forall id | id in w.db.objects && !Pending(w.db.objects[id]) && FileName(cfg, w.db.objects[id].uri.GetOr("")) ::
      var uri := w.db.objects[id].uri.GetOr("");
      uri in w.store && w.db.objects[id].size == Some(|w.store[uri]|)
  }

  /** LinkObject about to verify an object with a size its file does not have. */
  ghost predicate Misrecords(s: State, e: Event) {
    && e.Advance? && e.pid in s.procs && s.procs[e.pid].PutLink? && e.choice.fault != Fails
    && var p := s.procs[e.pid];
       !IsVerified(s.world.db, p.oid) && p.uri in s.world.store && |s.world.store[p.uri]| != p.size
  }

  lemma TheLength(cfg: Config, w: World, uri: Uri, size: int)
    requires CollisionFree(cfg.sha) && uri in w.store && CellOk(cfg, w, uri)
    ensures HasLength(cfg, OidOf(uri), size) <==> |w.store[uri]| == size
  {
    assert forall data: Bytes :: cfg.sha(data) == OidOf(uri) ==> data == w.store[uri];
  }

  lemma FilesAreTrueIff(cfg: Config, w: World)
    requires CollisionFree(cfg.sha) && WorldOk(cfg, w)
    ensures FileSizesTrue(cfg, w) <==> HonestRows(cfg, w.db, false)
  {
    forall id | id in w.db.objects && !Pending(w.db.objects[id]) && FileName(cfg, w.db.objects[id].uri.GetOr(""))
      ensures var row := w.db.objects[id];
              row.uri.GetOr("") in w.store && (row.size == Some(|w.store[row.uri.GetOr("")]|) <==> HasLength(cfg, row.oid, row.size.GetOr(-1)))
    {
      var row := w.db.objects[id];
      assert RowOk(cfg, w, row);
      TheLength(cfg, w, row.uri.value, row.size.GetOr(-1));
    }
  }

  // ------------------------------------------------------------ one step, by kind

  lemma TxKeepsHonest(cfg: Config, w: World, db': Tables, repo: string, oid: Oid, size: int, offered: Uri, stored: Uri, bucket: bool)
    requires WorldOk(cfg, w) && FirstWriterWins(w.db, db', repo, oid, size, offered, stored) && HonestRows(cfg, w.db, bucket)
    requires !IsVerified(w.db, oid) && NamedBy(cfg, offered, bucket) ==> HasLength(cfg, oid, size)
    ensures HonestRows(cfg, db', bucket)
  {
    var id := Lookup(db', oid).value;
    forall other | other in db'.objects && !Pending(db'.objects[other]) && NamedBy(cfg, db'.objects[other].uri.GetOr(""), bucket)
      ensures HasLength(cfg, db'.objects[other].oid, db'.objects[other].size.GetOr(-1))
    {
      if other != id {
        assert db'.objects[other] == w.db.objects[other];
      }
    }
  }

  lemma SettledRows(cfg: Config, w: World, r: TxResult, fault: Fault, repo: string, oid: Oid, size: int, uri: Uri, bucket: bool)
    requires WorldOk(cfg, w) && HonestRows(cfg, w.db, bucket)
    requires r.1.Err? ==> r.0 == w.db
    requires r.1.Ok? ==> FirstWriterWins(w.db, r.0, repo, oid, size, uri, r.1.value)
    requires !IsVerified(w.db, oid) && NamedBy(cfg, uri, bucket) ==> HasLength(cfg, oid, size)
    ensures HonestRows(cfg, Settled(w, r, fault, repo, oid, size, uri).0.db, bucket)
  {
    if r.1.Ok? {
      TxKeepsHonest(cfg, w, r.0, repo, oid, size, uri, r.1.value, bucket);
    }
  }

  lemma BatchRows(cfg: Config, w: World, p: Proc, c: Choice, bucket: bool)
    requires WorldOk(cfg, w) && ProcOk(cfg, w, p) && p.BatchEntries? && HonestRows(cfg, w.db, bucket)
    ensures HonestRows(cfg, BatchStep(cfg, w, p, c).0.db, bucket)
  {
    if |p.entries| < |p.objects| && p.op == Upload && Dedup(cfg, p.found, p.objects[|p.entries|]) {
      DedupRows(cfg, w, p.repo, p.op, p.found, p.objects[|p.entries|], c.now, bucket);
    }
  }

  lemma DedupRows(cfg: Config, w: World, repo: string, op: Operation, found: map<Oid, Row>, o: BatchObject, now: int, bucket: bool)
    requires WorldOk(cfg, w) && FoundOk(w.db, repo, op, found) && Dedup(cfg, found, o) && ValidOid(o.oid) && HonestRows(cfg, w.db, bucket)
    ensures HonestRows(cfg, LinkTx(w.db, repo, o.oid, o.size, PLACEHOLDER, now).0, bucket)
  {
    DedupLinks(cfg, w, repo, op, found, o, now);
    var (db', r) := LinkTx(w.db, repo, o.oid, o.size, PLACEHOLDER, now);
    TxKeepsHonest(cfg, w, db', repo, o.oid, o.size, PLACEHOLDER, r.value, bucket);
  }

  /** A new row carries the offered size; the file is there to compare. */
  lemma LinkRowsIff(cfg: Config, w: World, p: Proc, c: Choice)
    requires GoodConfig(cfg) && CollisionFree(cfg.sha) && WorldOk(cfg, w) && ProcOk(cfg, w, p) && p.PutLink? && c.fault != Fails
    requires HonestRows(cfg, w.db, false)
    ensures HonestRows(cfg, Act(cfg, w, p, c).0.db, false) <==>
            !(!IsVerified(w.db, p.oid) && p.uri in w.store && |w.store[p.uri]| != p.size)
  {
    LinkTxMeaning(w.db, p.repo, p.oid, p.size, p.uri, c.now);
    var r := LinkTx(w.db, p.repo, p.oid, p.size, p.uri, c.now);
    if !IsVerified(w.db, p.oid) {
      TheLength(cfg, w, p.uri, p.size);
    }
    if !IsVerified(w.db, p.oid) && |w.store[p.uri]| != p.size {
      NewRowCarries(cfg, w.db, r.0, p.repo, p.oid, p.size, p.uri, r.1.value);
    } else {
      SettledRows(cfg, w, r, c.fault, p.repo, p.oid, p.size, p.uri, false);
    }
  }

  lemma NewRowCarries(cfg: Config, db: Tables, db': Tables, repo: string, oid: Oid, size: int, uri: Uri, stored: Uri)
    requires FirstWriterWins(db, db', repo, oid, size, uri, stored) && !IsVerified(db, oid)
    requires FileName(cfg, uri) && !HasLength(cfg, oid, size)
    ensures !HonestRows(cfg, db', false)
  {
    assert db'.objects[Lookup(db', oid).value].uri.GetOr("") == uri;
  }

  lemma LinkKeepsBucketRows(cfg: Config, w: World, p: Proc, c: Choice)
    requires GoodConfig(cfg) && WorldOk(cfg, w) && ProcOk(cfg, w, p) && p.PutLink? && HonestRows(cfg, w.db, true)
    ensures HonestRows(cfg, Act(cfg, w, p, c).0.db, true)
  {
    NeverBoth(cfg, p.uri);
    LinkTxMeaning(w.db, p.repo, p.oid, p.size, p.uri, c.now);
    SettledRows(cfg, w, LinkTx(w.db, p.repo, p.oid, p.size, p.uri, c.now), c.fault, p.repo, p.oid, p.size, p.uri, true);
  }

  lemma MarkRows(cfg: Config, w: World, p: Proc, c: Choice, bucket: bool)
    requires GoodConfig(cfg) && WorldOk(cfg, w) && ProcOk(cfg, w, p) && p.MarkVerified? && HonestRows(cfg, w.db, bucket)
    requires bucket ==> HasLength(cfg, p.oid, p.size)
    ensures HonestRows(cfg, Act(cfg, w, p, c).0.db, bucket)
  {
    NeverBoth(cfg, p.uri);
    VerifyTxMeaning(w.db, p.repo, p.oid, p.size, p.uri, c.now);
    SettledRows(cfg, w, VerifyTx(w.db, p.repo, p.oid, p.size, p.uri, c.now), c.fault, p.repo, p.oid, p.size, p.uri, bucket);
  }

  lemma SignRows(cfg: Config, w: World, p: Proc, c: Choice, bucket: bool)
    requires Shaped(p) && HonestRows(cfg, w.db, bucket)
    requires p.SignLookup? || p.SignInsert? || p.SignUrl? || p.ProxyCheck?
    ensures HonestRows(cfg, Act(cfg, w, p, c).0.db, bucket)
  {}

  lemma SweptTables(cfg: Config, w: World, p: Proc, c: Choice)
    requires p.SweepSelect? || p.SweepDelete?
    ensures SweepStep(cfg, w, p, c).0.db == w.db || SweepStep(cfg, w, p, c).0.db == Deleted(w.db, ToSet(c.ids))
  {}

  lemma FewerRows(cfg: Config, db: Tables, ids: set<nat>, bucket: bool)
    requires HonestRows(cfg, db, bucket)
    ensures HonestRows(cfg, Deleted(db, ids), bucket)
  {}

  lemma SweepRows(cfg: Config, w: World, p: Proc, c: Choice, bucket: bool)
    requires HonestRows(cfg, w.db, bucket) && (p.SweepSelect? || p.SweepDelete?)
    ensures HonestRows(cfg, SweepStep(cfg, w, p, c).0.db, bucket)
  {
    SweptTables(cfg, w, p, c);
    FewerRows(cfg, w.db, ToSet(c.ids), bucket);
  }

  lemma OtherRows(cfg: Config, w: World, p: Proc, c: Choice)
    requires Shaped(p)
    requires p.PutStat? || p.PutCopy? || p.HeadCheck? || p.LoserDelete? || p.BatchLookup? || p.GetLookup? || p.GetOpen? || p.Finished?
    ensures Act(cfg, w, p, c).0.db == w.db
  {}

  /** Every step but LinkObject keeps the rows honest. */
  lemma ActRows(cfg: Config, w: World, p: Proc, c: Choice, bucket: bool)
    requires GoodConfig(cfg) && WorldOk(cfg, w) && ProcOk(cfg, w, p) && HonestRows(cfg, w.db, bucket)
    requires !p.PutLink? && (p.MarkVerified? && bucket ==> HasLength(cfg, p.oid, p.size))
    ensures HonestRows(cfg, Act(cfg, w, p, c).0.db, bucket)
  {
    if p.MarkVerified? {
      MarkRows(cfg, w, p, c, bucket);
    } else if p.BatchEntries? {
      BatchRows(cfg, w, p, c, bucket);
    } else if p.SignLookup? || p.SignInsert? || p.SignUrl? || p.ProxyCheck? {
      SignRows(cfg, w, p, c, bucket);
    } else if p.SweepSelect? || p.SweepDelete? {
      SweepRows(cfg, w, p, c, bucket);
    } else {
      OtherRows(cfg, w, p, c);
    }
  }

  // ------------------------------------------------------------ files

  lemma RowsStayHonestIff(cfg: Config, s: State, e: Event)
    requires GoodConfig(cfg) && CollisionFree(cfg.sha) && Inv(cfg, s) && HonestRows(cfg, s.world.db, false)
    ensures HonestRows(cfg, Next(cfg, s, e).world.db, false) <==> !Misrecords(s, e)
  {
    if e.Advance? && e.pid in s.procs {
      var p := s.procs[e.pid];
      assert ProcOk(cfg, s.world, p);
      if !p.PutLink? {
        ActRows(cfg, s.world, p, e.choice, false);
      } else if e.choice.fault != Fails {
        LinkRowsIff(cfg, s.world, p, e.choice);
      }
    }
  }

  /** One event: afterwards every file has its recorded size exactly if the event
      is not a LinkObject that verifies an object with another size than its
      file has. */
  lemma FileSizesStayTrueIff(cfg: Config, s: State, e: Event)
    requires GoodConfig(cfg) && CollisionFree(cfg.sha) && Inv(cfg, s) && FileSizesTrue(cfg, s.world)
    ensures FileSizesTrue(cfg, Next(cfg, s, e).world) <==> !Misrecords(s, e)
  {
    NextKeeps(cfg, s, e);
    FilesAreTrueIff(cfg, s.world);
    FilesAreTrueIff(cfg, Next(cfg, s, e).world);
    RowsStayHonestIff(cfg, s, e);
  }

  ghost predicate AlwaysTrue(cfg: Config, s: State, events: seq<Event>)
    decreases |events|
  {
    FileSizesTrue(cfg, s.world) && (events == [] || AlwaysTrue(cfg, Next(cfg, s, events[0]), events[1..]))
  }

  ghost predicate NeverMisrecords(cfg: Config, s: State, events: seq<Event>)
    decreases |events|
  {
    events == [] || (!Misrecords(s, events[0]) && NeverMisrecords(cfg, Next(cfg, s, events[0]), events[1..]))
  }

  /** Over runs: the recorded sizes of files are true at every point exactly if
      no event of the run misrecords one. */
  lemma {:induction false} AlwaysTrueIff(cfg: Config, s: State, events: seq<Event>)
    requires GoodConfig(cfg) && CollisionFree(cfg.sha) && Inv(cfg, s) && FileSizesTrue(cfg, s.world)
    ensures AlwaysTrue(cfg, s, events) <==> NeverMisrecords(cfg, s, events)
    decreases |events|
  {
    if events != [] {
      NextKeeps(cfg, s, events[0]);
      FileSizesStayTrueIff(cfg, s, events[0]);
      if !Misrecords(s, events[0]) {
        AlwaysTrueIff(cfg, Next(cfg, s, events[0]), events[1..]);
      }
    }
  }

  /** After a copy the file has the declared size. */
  lemma CopiesAreHonest(cfg: Config, w: World, p: Proc, c: Choice)
    requires CollisionFree(cfg.sha) && WorldOk(cfg, w) && ProcOk(cfg, w, p) && p.PutCopy? && PutStep(cfg, w, p, c).1.PutLink?
    ensures HasLength(cfg, p.oid, p.size) && |PutStep(cfg, w, p, c).0.store[UriOf(p.b, p.oid)]| == p.size
  {
    CopySucceedsIff(cfg.sha, p.body, p.size, p.oid);
  }

  /** The requests whose body was never read, because the stat of Put found a
      file, and that have not crashed since. */
  ghost function SkippedNext(cfg: Config, s: State, skipped: set<nat>, e: Event): set<nat> {
    match e
    case Advance(pid, c) =>
      if pid in s.procs && s.procs[pid].PutStat? && pid in Next(cfg, s, e).procs && Next(cfg, s, e).procs[pid].PutLink?
      then skipped + {pid}
      else skipped
    case Crash(pid) => skipped - {pid}
    case _ => skipped
  }

  ghost function Skipped(cfg: Config, s: State, skipped: set<nat>, events: seq<Event>): set<nat>
    decreases |events|
  {
    if events == [] then skipped
    else Skipped(cfg, Next(cfg, s, events[0]), SkippedNext(cfg, s, skipped, events[0]), events[1..])
  }

  /** Every other request about to link declares the length of its file. */
  ghost predicate OthersHonest(cfg: Config, s: State, skipped: set<nat>) {
    forall pid | pid in s.procs && s.procs[pid].PutLink? && pid !in skipped :: HasLength(cfg, s.procs[pid].oid, s.procs[pid].size)
  }

  lemma OnlyPutLinks(cfg: Config, w: World, p: Proc, c: Choice)
    requires Shaped(p) && Act(cfg, w, p, c).1.PutLink?
    ensures p.PutStat? || (p.PutCopy? && Act(cfg, w, p, c) == PutStep(cfg, w, p, c))
    ensures p.PutCopy? ==> Act(cfg, w, p, c).1.oid == p.oid && Act(cfg, w, p, c).1.size == p.size
  {}

  lemma OthersStayHonest(cfg: Config, s: State, skipped: set<nat>, e: Event)
    requires CollisionFree(cfg.sha) && Inv(cfg, s) && OthersHonest(cfg, s, skipped)
    ensures OthersHonest(cfg, Next(cfg, s, e), SkippedNext(cfg, s, skipped, e))
  {
    match e
    case Advance(pid, c) =>
      if pid in s.procs {
        var p := s.procs[pid];
        assert ProcOk(cfg, s.world, p);
        AdvanceIsAct(cfg, s, pid, c);
        if Act(cfg, s.world, p, c).1.PutLink? {
          OnlyPutLinks(cfg, s.world, p, c);
          if p.PutCopy? { CopiesAreHonest(cfg, s.world, p, c); }
        }
      }
    case Arrive(_, request) => ArrivesUnlinked(cfg, request);
    case _ =>
  }

  lemma ArrivesUnlinked(cfg: Config, request: Request)
    ensures !Admit(cfg, request).PutLink?
  {}

  lemma {:induction false} OthersHonestAlways(cfg: Config, s: State, skipped: set<nat>, events: seq<Event>)
    requires GoodConfig(cfg) && CollisionFree(cfg.sha) && Inv(cfg, s) && OthersHonest(cfg, s, skipped)
    ensures OthersHonest(cfg, Run(cfg, s, events), Skipped(cfg, s, skipped, events))
    decreases |events|
  {
    if events != [] {
      OthersStayHonest(cfg, s, skipped, events[0]);
      NextKeeps(cfg, s, events[0]);
      OthersHonestAlways(cfg, Next(cfg, s, events[0]), SkippedNext(cfg, s, skipped, events[0]), events[1..]);
    }
  }

  /** Over every run: whoever misrecords a size is a request whose body was never
      read, because a file was there. */
  lemma MisrecordersSkipped(cfg: Config, events: seq<Event>, e: Event)
    requires GoodConfig(cfg) && CollisionFree(cfg.sha) && Misrecords(Run(cfg, INITIAL, events), e)
    ensures e.pid in Skipped(cfg, INITIAL, {}, events)
  {
    var s := Run(cfg, INITIAL, events);
    RunFromStart(cfg, events);
    OthersHonestAlways(cfg, INITIAL, {}, events);
    assert ProcOk(cfg, s.world, s.procs[e.pid]);
    if e.pid !in Skipped(cfg, INITIAL, {}, events) {
      MisrecordsNoLength(cfg, s, e);
    }
  }

  lemma MisrecordsNoLength(cfg: Config, s: State, e: Event)
    requires CollisionFree(cfg.sha) && Inv(cfg, s) && Misrecords(s, e)
    ensures !HasLength(cfg, s.procs[e.pid].oid, s.procs[e.pid].size)
  {
    var p := s.procs[e.pid];
    assert ProcOk(cfg, s.world, p);
    TheLength(cfg, s.world, p.uri, p.size);
  }

  // ------------------------------------------------------------ bucket objects

  /** Every verify past Head carries the length of what hashes to its id. */
  ghost predicate MarksHonest(cfg: Config, s: State) {
    forall pid | pid in s.procs && s.procs[pid].MarkVerified? :: HasLength(cfg, s.procs[pid].oid, s.procs[pid].size)
  }

  lemma OnlyHeadMarks(cfg: Config, w: World, p: Proc, c: Choice)
    requires Shaped(p) && Act(cfg, w, p, c).1.MarkVerified?
    ensures p.HeadCheck? && var q := CheckStep(w, p, c).1; Act(cfg, w, p, c).1 == q && q.oid == p.oid && q.size == p.size
    ensures UriOf(p.b, p.oid) in w.store && |w.store[UriOf(p.b, p.oid)]| == p.size
  {}

  lemma HeadIsHonest(cfg: Config, w: World, p: Proc, c: Choice)
    requires WorldOk(cfg, w) && ProcOk(cfg, w, p) && Act(cfg, w, p, c).1.MarkVerified?
    ensures var q := Act(cfg, w, p, c).1; HasLength(cfg, q.oid, q.size)
  {
    OnlyHeadMarks(cfg, w, p, c);
    NamedUri(cfg, p.b, p.oid);
    assert CellOk(cfg, w, UriOf(p.b, p.oid));
  }

  lemma MarksStayHonest(cfg: Config, s: State, e: Event)
    requires Inv(cfg, s) && MarksHonest(cfg, s)
    ensures MarksHonest(cfg, Next(cfg, s, e))
  {
    if e.Advance? && e.pid in s.procs {
      assert ProcOk(cfg, s.world, s.procs[e.pid]);
      MarkAfter(cfg, s.world, s.procs[e.pid], e.choice);
      AdvanceIsAct(cfg, s, e.pid, e.choice);
      var (w, p) := Act(cfg, s.world, s.procs[e.pid], e.choice);
      MarksUpdated(cfg, s, w, e.pid, p);
    } else if e.Arrive? {
      ArrivesUnmarked(cfg, e.request);
    }
  }

  lemma MarksUpdated(cfg: Config, s: State, w: World, pid: nat, p: Proc)
    requires MarksHonest(cfg, s) && (p.MarkVerified? ==> HasLength(cfg, p.oid, p.size))
    ensures MarksHonest(cfg, State(w, s.procs[pid := p]))
  {}

  lemma ArrivesUnmarked(cfg: Config, request: Request)
    ensures !Admit(cfg, request).MarkVerified?
  {}

  lemma MarkAfter(cfg: Config, w: World, p: Proc, c: Choice)
    requires WorldOk(cfg, w) && ProcOk(cfg, w, p)
    ensures var q := Act(cfg, w, p, c).1; q.MarkVerified? ==> HasLength(cfg, q.oid, q.size)
  {
    if Act(cfg, w, p, c).1.MarkVerified? {
      HeadIsHonest(cfg, w, p, c);
    }
  }

  lemma BucketRowsStayHonest(cfg: Config, s: State, e: Event)
    requires GoodConfig(cfg) && Inv(cfg, s) && HonestRows(cfg, s.world.db, true) && MarksHonest(cfg, s)
    ensures HonestRows(cfg, Next(cfg, s, e).world.db, true)
  {
    if e.Advance? && e.pid in s.procs {
      var p := s.procs[e.pid];
      assert ProcOk(cfg, s.world, p);
      if p.PutLink? {
        LinkKeepsBucketRows(cfg, s.world, p, e.choice);
      } else {
        ActRows(cfg, s.world, p, e.choice, true);
      }
    }
  }

  lemma {:induction false} BucketRowsAreHonest(cfg: Config, s: State, events: seq<Event>)
    requires GoodConfig(cfg) && Inv(cfg, s) && HonestRows(cfg, s.world.db, true) && MarksHonest(cfg, s)
    ensures HonestRows(cfg, Run(cfg, s, events).world.db, true)
    decreases |events|
  {
    if events != [] {
      NextKeeps(cfg, s, events[0]);
      BucketRowsStayHonest(cfg, s, events[0]);
      MarksStayHonest(cfg, s, events[0]);
      BucketRowsAreHonest(cfg, Next(cfg, s, events[0]), events[1..]);
    }
  }

  /** Over every run, a verified bucket object that is there has its recorded size. */
  lemma RecordedSizeIsLength(cfg: Config, events: seq<Event>, id: nat)
    requires GoodConfig(cfg) && CollisionFree(cfg.sha)
    requires var w := Run(cfg, INITIAL, events).world;
             && id in w.db.objects && !Pending(w.db.objects[id])
             && BucketName(cfg, w.db.objects[id].uri.GetOr("")) && w.db.objects[id].uri.GetOr("") in w.store
    ensures var w := Run(cfg, INITIAL, events).world;
            w.db.objects[id].size == Some(|w.store[w.db.objects[id].uri.GetOr("")]|)
  {
    RunFromStart(cfg, events);
    BucketRowsAreHonest(cfg, INITIAL, events);
    var w := Run(cfg, INITIAL, events).world;
    assert RowOk(cfg, w, w.db.objects[id]);
    TheLength(cfg, w, w.db.objects[id].uri.value, w.db.objects[id].size.GetOr(-1));
  }
}
