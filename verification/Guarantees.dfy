/** What holds over every run of the server, from empty tables and an empty
    store, under every interleaving, fault and crash. */
module Guarantees {
  import opened Wrappers
  import opened Strings
  import opened Uris
  import opened Tables
  import opened Sweeps
  import opened Streams
  import opened Lifecycle
  import opened Safety
  import opened Steps

  lemma RunFromStart(cfg: Config, events: seq<Event>)
    requires GoodConfig(cfg)
    ensures Inv(cfg, Run(cfg, INITIAL, events))
  {
    RunKeeps(cfg, INITIAL, events);
  }

  /** Byte safety of filesystem objects: the file of a verified row is there and
      hashes to its id; and a request past Put has its file, or has lost. */
  lemma FilesAreBacked(cfg: Config, events: seq<Event>)
    requires GoodConfig(cfg)
    ensures var w := Run(cfg, INITIAL, events).world;
            forall id | id in w.db.objects && !Pending(w.db.objects[id]) && FileName(cfg, w.db.objects[id].uri.GetOr("")) ::
              var uri := w.db.objects[id].uri.GetOr("");
              uri in w.store && cfg.sha(w.store[uri]) == w.db.objects[id].oid
    ensures var s := Run(cfg, INITIAL, events);
            forall pid | pid in s.procs && s.procs[pid].PutLink? ::
              s.procs[pid].uri in s.world.store || Lost(s.world.db, s.procs[pid].oid, s.procs[pid].uri)
  {
    RunFromStart(cfg, events);
    var s := Run(cfg, INITIAL, events);
    forall id | id in s.world.db.objects && !Pending(s.world.db.objects[id]) && FileName(cfg, s.world.db.objects[id].uri.GetOr(""))
      ensures var uri := s.world.db.objects[id].uri.GetOr("");
              uri in s.world.store && cfg.sha(s.world.store[uri]) == s.world.db.objects[id].oid
    {
      assert RowOk(cfg, s.world, s.world.db.objects[id]);
      assert CellOk(cfg, s.world, s.world.db.objects[id].uri.value);
    }
    forall pid | pid in s.procs && s.procs[pid].PutLink?
      ensures s.procs[pid].uri in s.world.store || Lost(s.world.db, s.procs[pid].oid, s.procs[pid].uri)
    {
      assert ProcOk(cfg, s.world, s.procs[pid]);
    }
  }

  /** The tables: unique oids, all-or-none columns, exact counts, no dangling
      link; so the unreferenced sweep never has a row to take. */
  lemma TablesAreKept(cfg: Config, events: seq<Event>)
    requires GoodConfig(cfg)
    ensures WellKept(Run(cfg, INITIAL, events).world.db)
    ensures Unreferenced(Run(cfg, INITIAL, events).world.db) == {}
  {
    RunFromStart(cfg, events);
    var db := Run(cfg, INITIAL, events).world.db;
    forall id | id in db.objects ensures id !in Unreferenced(db) {
      assert RowKept(db, id);
    }
  }

  /** The placeholder of the dedup path is never stored. */
  lemma PlaceholderIsNeverStored(cfg: Config, events: seq<Event>)
    requires GoodConfig(cfg)
    ensures var db := Run(cfg, INITIAL, events).world.db;
            forall id | id in db.objects :: db.objects[id].uri != Some(PLACEHOLDER)
  {
    RunFromStart(cfg, events);
    var w := Run(cfg, INITIAL, events).world;
    forall id | id in w.db.objects ensures w.db.objects[id].uri != Some(PLACEHOLDER) {
      assert RowOk(cfg, w, w.db.objects[id]) && RowKept(w.db, id);
    }
  }

  /** Whatever ran since a batch looked its objects up, the rows it captured are
      still there unchanged, and the dedup branch succeeds. */
  lemma SnapshotStillHolds(cfg: Config, events: seq<Event>, pid: nat, o: BatchObject, now: int)
    requires GoodConfig(cfg)
    requires var s := Run(cfg, INITIAL, events);
             && pid in s.procs && s.procs[pid].BatchEntries? && s.procs[pid].op == Upload
             && o in s.procs[pid].objects && Dedup(cfg, s.procs[pid].found, o)
    ensures var s := Run(cfg, INITIAL, events);
            var p := s.procs[pid];
            && StillThere(s.world.db, o.oid, p.found[o.oid])
            && LinkTx(s.world.db, p.repo, o.oid, o.size, PLACEHOLDER, now).1 == Ok(p.found[o.oid].uri.GetOr(""))
  {
    RunFromStart(cfg, events);
    var s := Run(cfg, INITIAL, events);
    var p := s.procs[pid];
    assert ProcOk(cfg, s.world, p);
    DedupLinks(cfg, s.world, p.repo, p.op, p.found, o, now);
  }

  // ------------------------------------------------------------ winner agreement

  /** A LinkObject or VerifyObject call that commits in an event: its object,
      the URI it offers, and what it returns. */
  datatype Call = NoCall | Called(oid: Oid, offered: Uri, result: Result<Uri, TxError>)

  ghost function CallOf(cfg: Config, s: State, e: Event): Call {
    if !e.Advance? || e.pid !in s.procs || e.choice.fault == Fails then NoCall
    else
      var db, now := s.world.db, e.choice.now;
      match s.procs[e.pid]
      case PutLink(repo, oid, size, uri) => Called(oid, uri, LinkTx(db, repo, oid, size, uri, now).1)
      case MarkVerified(repo, oid, size, uri) => Called(oid, uri, VerifyTx(db, repo, oid, size, uri, now).1)
      case BatchEntries(repo, Upload, objects, found, entries) =>
        if |entries| < |objects| && Dedup(cfg, found, objects[|entries|]) then
          var o := objects[|entries|];
          Called(o.oid, PLACEHOLDER, LinkTx(db, repo, o.oid, o.size, PLACEHOLDER, now).1)
        else NoCall
      case _ => NoCall
  }

  /** The canonical URI after a call: the old one, or the offer. */
  ghost predicate Decided(db: Tables, db': Tables, oid: Oid, offered: Uri, stored: Uri) {
    && Canonical(db', oid) == Some(stored)
    && (if IsVerified(db, oid) then Canonical(db, oid) == Some(stored) else stored == offered)
  }

  lemma WinnerDecides(db: Tables, db': Tables, repo: string, oid: Oid, size: int, offered: Uri, stored: Uri)
    requires FirstWriterWins(db, db', repo, oid, size, offered, stored)
    ensures Decided(db, db', oid, offered, stored)
  {}

  lemma LinkDecides(cfg: Config, w: World, p: Proc, c: Choice)
    requires WorldOk(cfg, w) && ProcOk(cfg, w, p) && p.PutLink? && c.fault != Fails
    requires LinkTx(w.db, p.repo, p.oid, p.size, p.uri, c.now).1.Ok?
    ensures Decided(w.db, Act(cfg, w, p, c).0.db, p.oid, p.uri, LinkTx(w.db, p.repo, p.oid, p.size, p.uri, c.now).1.value)
  {
    var (db', r) := LinkTx(w.db, p.repo, p.oid, p.size, p.uri, c.now);
    LinkTxMeaning(w.db, p.repo, p.oid, p.size, p.uri, c.now);
    WinnerDecides(w.db, db', p.repo, p.oid, p.size, p.uri, r.value);
  }

  lemma MarkDecides(cfg: Config, w: World, p: Proc, c: Choice)
    requires WorldOk(cfg, w) && ProcOk(cfg, w, p) && p.MarkVerified? && c.fault != Fails
    requires VerifyTx(w.db, p.repo, p.oid, p.size, p.uri, c.now).1.Ok?
    ensures Decided(w.db, Act(cfg, w, p, c).0.db, p.oid, p.uri, VerifyTx(w.db, p.repo, p.oid, p.size, p.uri, c.now).1.value)
  {
    var (db', r) := VerifyTx(w.db, p.repo, p.oid, p.size, p.uri, c.now);
    VerifyTxMeaning(w.db, p.repo, p.oid, p.size, p.uri, c.now);
    WinnerDecides(w.db, db', p.repo, p.oid, p.size, p.uri, r.value);
  }

  lemma DedupDecides(cfg: Config, w: World, p: Proc, c: Choice)
    requires WorldOk(cfg, w) && ProcOk(cfg, w, p) && p.BatchEntries? && p.op == Upload && |p.entries| < |p.objects| && c.fault != Fails
    requires Dedup(cfg, p.found, p.objects[|p.entries|])
    ensures var o := p.objects[|p.entries|];
            var (db', r) := LinkTx(w.db, p.repo, o.oid, o.size, PLACEHOLDER, c.now);
            r.Ok? && BatchStep(cfg, w, p, c).0.db == db' && Decided(w.db, db', o.oid, PLACEHOLDER, r.value)
  {
    var o := p.objects[|p.entries|];
    DedupLinks(cfg, w, p.repo, p.op, p.found, o, c.now);
    var (db', r) := LinkTx(w.db, p.repo, o.oid, o.size, PLACEHOLDER, c.now);
    WinnerDecides(w.db, db', p.repo, o.oid, o.size, PLACEHOLDER, r.value);
  }

  lemma CallDecides(cfg: Config, s: State, e: Event)
    requires GoodConfig(cfg) && Inv(cfg, s)
    requires CallOf(cfg, s, e).Called? && CallOf(cfg, s, e).result.Ok?
    ensures var Called(oid, offered, r) := CallOf(cfg, s, e);
            Decided(s.world.db, Next(cfg, s, e).world.db, oid, offered, r.value)
  {
    var w, p := s.world, s.procs[e.pid];
    assert ProcOk(cfg, w, p);
    AdvanceIsAct(cfg, s, e.pid, e.choice);
    match p
    case PutLink(_, _, _, _) => LinkDecides(cfg, w, p, e.choice);
    case MarkVerified(_, _, _, _) => MarkDecides(cfg, w, p, e.choice);
    case BatchEntries(_, _, _, _, _) => DedupDecides(cfg, w, p, e.choice);
    case _ =>
  }

  lemma CanonicalStays(cfg: Config, s: State, events: seq<Event>, oid: Oid)
    requires GoodConfig(cfg) && Inv(cfg, s) && IsVerified(s.world.db, oid)
    ensures IsVerified(Run(cfg, s, events).world.db, oid)
    ensures Canonical(Run(cfg, s, events).world.db, oid) == Canonical(s.world.db, oid)
  {
    RunKeeps(cfg, s, events);
    VerifiedStays(s.world.db, Run(cfg, s, events).world.db, oid);
  }

  /** Any two successful calls for one object return the same URI, whatever runs
      before, between and besides them: the one offered by the call that first
      made the object verified. */
  lemma WinnersAgree(cfg: Config, before: seq<Event>, e: Event, between: seq<Event>, f: Event)
    requires GoodConfig(cfg)
    requires var s := Run(cfg, INITIAL, before);
             var t := Run(cfg, Next(cfg, s, e), between);
             && CallOf(cfg, s, e).Called? && CallOf(cfg, t, f).Called?
             && CallOf(cfg, s, e).oid == CallOf(cfg, t, f).oid
             && CallOf(cfg, s, e).result.Ok? && CallOf(cfg, t, f).result.Ok?
    ensures var s := Run(cfg, INITIAL, before);
            var t := Run(cfg, Next(cfg, s, e), between);
            && CallOf(cfg, s, e).result == CallOf(cfg, t, f).result
            && (!IsVerified(s.world.db, CallOf(cfg, s, e).oid) ==> CallOf(cfg, s, e).result == Ok(CallOf(cfg, s, e).offered))
  {
    RunFromStart(cfg, before);
    var s := Run(cfg, INITIAL, before);
    var s1 := Next(cfg, s, e);
    var oid := CallOf(cfg, s, e).oid;
    NextKeeps(cfg, s, e);
    CallDecides(cfg, s, e);
    assert IsVerified(s1.world.db, oid);
    CanonicalStays(cfg, s1, between, oid);
    RunKeeps(cfg, s1, between);
    CallDecides(cfg, Run(cfg, s1, between), f);
  }

  /** Size, URI and the times of a verified row never change, and it stays. */
  lemma VerifiedIsWriteOnce(cfg: Config, before: seq<Event>, after: seq<Event>, oid: Oid)
    requires GoodConfig(cfg) && IsVerified(Run(cfg, INITIAL, before).world.db, oid)
    ensures var db, db' := Run(cfg, INITIAL, before).world.db, Run(cfg, INITIAL, before + after).world.db;
            && IsVerified(db', oid) && Lookup(db', oid) == Lookup(db, oid)
            && SameFacts(db.objects[Lookup(db, oid).value], db'.objects[Lookup(db, oid).value])
            && db.objects[Lookup(db, oid).value].repoCount <= db'.objects[Lookup(db, oid).value].repoCount
  {
    RunFromStart(cfg, before);
    var s := Run(cfg, INITIAL, before);
    RunAppend(cfg, INITIAL, before, after);
    RunKeeps(cfg, s, after);
    VerifiedStays(s.world.db, Run(cfg, s, after).world.db, oid);
  }

  lemma LostIsNoRow(cfg: Config, w: World, uri: Uri, id: nat)
    requires WorldOk(cfg, w) && |uri| >= 64 && Lost(w.db, OidOf(uri), uri)
    requires id in w.db.objects && !Pending(w.db.objects[id])
    ensures w.db.objects[id].uri != Some(uri)
  {
    assert RowOk(cfg, w, w.db.objects[id]);
    LookupUnique(w.db, w.db.objects[id].oid, id);
  }

  lemma LoserHasLost(cfg: Config, w: World, p: Proc)
    requires ProcOk(cfg, w, p) && p.LoserDelete?
    ensures |p.uri| >= 64 && Lost(w.db, OidOf(p.uri), p.uri)
  {}

  /** A pending loser delete never aims at a canonical object, of any oid. */
  lemma LoserIsNeverCanonical(cfg: Config, events: seq<Event>, pid: nat, id: nat)
    requires GoodConfig(cfg)
    requires var s := Run(cfg, INITIAL, events);
             && pid in s.procs && s.procs[pid].LoserDelete?
             && id in s.world.db.objects && !Pending(s.world.db.objects[id])
    ensures var s := Run(cfg, INITIAL, events);
            s.world.db.objects[id].uri != Some(s.procs[pid].uri)
  {
    RunFromStart(cfg, events);
    var s := Run(cfg, INITIAL, events);
    LoserHasLost(cfg, s.world, s.procs[pid]);
    LostIsNoRow(cfg, s.world, s.procs[pid].uri, id);
  }

  // ------------------------------------------------------------ bounds

  /** Every verified row has a size within the limit and a URI, so the download
      handler's schema-violation branch is unreachable. */
  lemma SizesAreBounded(cfg: Config, events: seq<Event>, repo: string, oid: Oid)
    requires GoodConfig(cfg)
    requires LinkedRow(Run(cfg, INITIAL, events).world.db, repo, oid).Some?
    ensures var row := LinkedRow(Run(cfg, INITIAL, events).world.db, repo, oid).value;
            && !(row.uri.GetOr("") == "" || row.size.GetOr(-1) < 0)
            && (cfg.maxObjectSize > 0 ==> row.size.GetOr(-1) <= cfg.maxObjectSize)
  {
    RunFromStart(cfg, events);
    LinkedIsDownloadable(cfg, Run(cfg, INITIAL, events).world, repo, oid);
  }

  // ------------------------------------------------------------ promises

  /** The objects a finished request has promised to its repository. */
  ghost predicate Promises(reply: Reply, repo: string, oid: Oid, size: int) {
    match reply
    case NoContent(r, o, n) => r == repo && o == oid && n == size
    case BatchReply(r, op, objects, entries) =>
      r == repo && exists i :: 0 <= i < |entries| && Grants(op, entries[i]) && entries[i].oid == oid && entries[i].size == size
    case _ => false
  }

  lemma PromiseHolds(cfg: Config, w: World, reply: Reply, repo: string, oid: Oid, size: int)
    requires ReplyOk(cfg, w, reply) && Promises(reply, repo, oid, size)
    ensures Downloadable(w.db, repo, oid, size)
  {
    if reply.BatchReply? {
      var i :| 0 <= i < |reply.entries| && Grants(reply.op, reply.entries[i])
               && reply.entries[i].oid == oid && reply.entries[i].size == size;
      assert EntryOk(w.db, repo, reply.op, reply.objects[i], reply.entries[i]);
    }
  }

  lemma DownloadableIsOffered(db: Tables, repo: string, oid: Oid, size: int, oids: set<Oid>)
    requires Downloadable(db, repo, oid, size) && oid in oids
    ensures DownloadEntry(LinkedRows(db, repo, oids), BatchObject(oid, size)).answer == DownloadAction
    ensures LinkedRow(db, repo, oid).Some? && LinkedRow(db, repo, oid).value.size == Some(size)
  {}

  /** After a 204 for an upload or a verify, or a batch entry without error and
      actions (or with a download action), every later download batch of that
      repository offers a download, and every later GET finds the row. */
  lemma PromisesAreKept(cfg: Config, before: seq<Event>, after: seq<Event>, pid: nat, repo: string, oid: Oid, size: int, oids: set<Oid>)
    requires GoodConfig(cfg) && oid in oids
    requires var s := Run(cfg, INITIAL, before);
             pid in s.procs && s.procs[pid].Finished? && Promises(s.procs[pid].reply, repo, oid, size)
    ensures var db := Run(cfg, INITIAL, before + after).world.db;
            && DownloadEntry(LinkedRows(db, repo, oids), BatchObject(oid, size)).answer == DownloadAction
            && LinkedRow(db, repo, oid).Some? && LinkedRow(db, repo, oid).value.size == Some(size)
  {
    RunFromStart(cfg, before);
    var s := Run(cfg, INITIAL, before);
    var t := Run(cfg, s, after);
    PromiseHolds(cfg, s.world, s.procs[pid].reply, repo, oid, size);
    RunAppend(cfg, INITIAL, before, after);
    RunKeeps(cfg, s, after);
    DownloadableStays(s.world.db, t.world.db, repo, oid, size);
    DownloadableIsOffered(t.world.db, repo, oid, size, oids);
  }

  lemma ResolvedIsAFile(cfg: Config, b: Backend, uri: Uri)
    requires GoodConfig(cfg) && b in cfg.backends.Values && b.Filesystem? && Resolves(b, uri)
    ensures !BucketName(cfg, uri)
  {
    if BucketName(cfg, uri) {
      var h :| h in cfg.backends && cfg.backends[h].Bucket? && uri == UriOf(cfg.backends[h], OidOf(uri));
      BucketsDoNotResolve(b, cfg.backends[h], OidOf(uri));
    }
  }

  /** The last step of a GET. */
  lemma OpenDelivers(cfg: Config, w: World, p: Proc, c: Choice)
    requires GoodConfig(cfg) && c.fault.NoFault? && WorldOk(cfg, w) && ProcOk(cfg, w, p) && p.GetOpen? && p.b.Filesystem?
    ensures var q := GetStep(w, p, c).1;
            && (Resolves(p.b, p.uri) <==> q.Finished? && q.reply.Body?)
            && (q.Finished? && q.reply.Body? ==> q.reply.oid == p.oid && cfg.sha(q.reply.data) == p.oid)
  {
    CanonicalCell(cfg, w, p.oid, p.uri);
    if Resolves(p.b, p.uri) {
      ResolvedIsAFile(cfg, p.b, p.uri);
      assert RowOk(cfg, w, w.db.objects[Lookup(w.db, p.oid).value]);
    }
  }

  /** A GET on a filesystem backend that meets no fault answers the bytes of the
      object exactly when the backend resolves the canonical URI; it never
      finds the file gone, and the bytes hash to the requested id. */
  lemma DownloadDelivers(cfg: Config, events: seq<Event>, pid: nat, c: Choice)
    requires GoodConfig(cfg) && c.fault.NoFault?
    requires var s := Run(cfg, INITIAL, events);
             pid in s.procs && s.procs[pid].GetOpen? && s.procs[pid].b.Filesystem?
    ensures var s := Run(cfg, INITIAL, events);
            var p := Next(cfg, s, Advance(pid, c)).procs[pid];
            && (Resolves(s.procs[pid].b, s.procs[pid].uri) <==> p.Finished? && p.reply.Body?)
            && (p.Finished? && p.reply.Body? ==> p.reply.oid == s.procs[pid].oid && cfg.sha(p.reply.data) == s.procs[pid].oid)
  {
    RunFromStart(cfg, events);
    var s := Run(cfg, INITIAL, events);
    assert ProcOk(cfg, s.world, s.procs[pid]);
    AdvanceIsAct(cfg, s, pid, c);
    OpenDelivers(cfg, s.world, s.procs[pid], c);
  }
}
