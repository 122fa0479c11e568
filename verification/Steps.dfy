/** Every step of every request keeps the invariant. */
module Steps {
  import opened Wrappers
  import opened Uris
  import opened Tables
  import opened Sweeps
  import opened Streams
  import opened Lifecycle
  import opened Safety

  /** What a step of one request must establish. */
  ghost predicate Sound(cfg: Config, w: World, r: (World, Proc)) {
    WorldOk(cfg, r.0) && Evolves(cfg, w, r.0) && ProcOk(cfg, r.0, r.1)
  }

  /** What the download query returns can be downloaded. */
  lemma LinkedIsDownloadable(cfg: Config, w: World, repo: string, oid: Oid)
    requires WorldOk(cfg, w) && LinkedRow(w.db, repo, oid).Some?
    ensures var row := LinkedRow(w.db, repo, oid).value;
            && row.size.Some? && SizeOk(cfg, row.size.value) && Downloadable(w.db, repo, oid, row.size.value)
            && row.uri.Some? && row.uri.value != "" && Canonical(w.db, oid) == row.uri
  {
    assert RowOk(cfg, w, w.db.objects[Lookup(w.db, oid).value]);
  }

  /** What is stored under the canonical name of an object hashes to its id. */
  lemma CanonicalCell(cfg: Config, w: World, oid: Oid, uri: Uri)
    requires WorldOk(cfg, w) && Canonical(w.db, oid) == Some(uri)
    ensures uri in w.store ==> cfg.sha(w.store[uri]) == oid
    ensures FileName(cfg, uri) ==> uri in w.store
  {
    assert RowOk(cfg, w, w.db.objects[Lookup(w.db, oid).value]);
    if uri in w.store {
      assert CellOk(cfg, w, uri);
    }
  }

  lemma Stay(cfg: Config, w: World, p: Proc)
    requires WorldOk(cfg, w) && ProcOk(cfg, w, p)
    ensures Sound(cfg, w, (w, p))
  {
    EvolvesRefl(cfg, w);
  }

  lemma StayCode(cfg: Config, w: World, status: int)
    requires WorldOk(cfg, w)
    ensures Sound(cfg, w, (w, Finished(Code(status))))
  {
    Stay(cfg, w, Finished(Code(status)));
  }

  ghost predicate OidOfIs(cfg: Config, uri: Uri, oid: Oid) {
    (FileName(cfg, uri) || BucketName(cfg, uri)) && OidOf(uri) == oid
  }

  lemma SettledSound(cfg: Config, w: World, r: TxResult, fault: Fault, repo: string, oid: Oid, size: int, uri: Uri)
    requires WorldOk(cfg, w)
    requires r.1.Err? ==> r.0 == w.db
    requires r.1.Ok? ==>
               && WellKept(r.0) && Grows(w.db, r.0) && FirstWriterWins(w.db, r.0, repo, oid, size, uri, r.1.value)
    requires SizeOk(cfg, size) && OidOfIs(cfg, uri, oid)
    requires !IsVerified(w.db, oid) && FileName(cfg, uri) ==> uri in w.store
    ensures Sound(cfg, w, Settled(w, r, fault, repo, oid, size, uri))
  {
    if fault.Fails? || r.1.Err? {
      StayCode(cfg, w, 500);
    } else {
      TxKeepsWorld(cfg, w, r.0, repo, oid, size, uri, r.1.value);
      var w' := w.(db := r.0);
      if fault.NoFault? {
        SettledProc(cfg, w', repo, oid, size, uri, r.1.value);
      }
      assert ProcOk(cfg, w', Settled(w, r, fault, repo, oid, size, uri).1);
    }
  }

  lemma SettledProc(cfg: Config, w: World, repo: string, oid: Oid, size: int, uri: Uri, stored: Uri)
    requires Downloadable(w.db, repo, oid, size) && Canonical(w.db, oid) == Some(stored) && OidOfIs(cfg, uri, oid)
    ensures ProcOk(cfg, w, if stored != uri then LoserDelete(repo, oid, size, uri) else Finished(NoContent(repo, oid, size)))
  {}

  lemma StatSound(cfg: Config, w: World, p: Proc, c: Choice)
    requires WorldOk(cfg, w) && ProcOk(cfg, w, p) && p.PutStat?
    ensures Sound(cfg, w, PutStep(cfg, w, p, c))
  {
    NamedUri(cfg, p.b, p.oid);
    Stay(cfg, w, PutStep(cfg, w, p, c).1);
  }

  lemma CopySound(cfg: Config, w: World, p: Proc, c: Choice)
    requires GoodConfig(cfg) && WorldOk(cfg, w) && ProcOk(cfg, w, p) && p.PutCopy?
    ensures Sound(cfg, w, PutStep(cfg, w, p, c))
  {
    var uri := UriOf(p.b, p.oid);
    CopySucceedsIff(cfg.sha, p.body, p.size, p.oid);
    if c.fault != NoFault {
      StayCode(cfg, w, 500);
    } else if CopyResult(cfg.sha, p.body, p.size, p.oid).Some? {
      StayCode(cfg, w, CopyStatus(CopyResult(cfg.sha, p.body, p.size, p.oid).value));
    } else {
      NamedUri(cfg, p.b, p.oid);
      NeverBoth(cfg, uri);
      WriteKeepsWorld(cfg, w, uri, Flow(p.body).0);
    }
  }

  lemma LinkSound(cfg: Config, w: World, p: Proc, c: Choice)
    requires WorldOk(cfg, w) && ProcOk(cfg, w, p) && p.PutLink?
    ensures Sound(cfg, w, Act(cfg, w, p, c))
  {
    LinkTxMeaning(w.db, p.repo, p.oid, p.size, p.uri, c.now);
    SettledSound(cfg, w, LinkTx(w.db, p.repo, p.oid, p.size, p.uri, c.now), c.fault, p.repo, p.oid, p.size, p.uri);
  }

  lemma MarkSound(cfg: Config, w: World, p: Proc, c: Choice)
    requires GoodConfig(cfg) && WorldOk(cfg, w) && ProcOk(cfg, w, p) && p.MarkVerified?
    ensures Sound(cfg, w, Act(cfg, w, p, c))
  {
    NeverBoth(cfg, p.uri);
    VerifyTxMeaning(w.db, p.repo, p.oid, p.size, p.uri, c.now);
    SettledSound(cfg, w, VerifyTx(w.db, p.repo, p.oid, p.size, p.uri, c.now), c.fault, p.repo, p.oid, p.size, p.uri);
  }

  lemma PendingTxRows(db: Tables, oid: Oid, now: int)
    ensures forall id | id in PendingTx(db, oid, now).objects ::
              (id in db.objects && PendingTx(db, oid, now).objects[id] == db.objects[id])
              || (Pending(PendingTx(db, oid, now).objects[id]) && PendingTx(db, oid, now).objects[id].oid == oid)
  {}

  lemma SignInsertSound(cfg: Config, w: World, p: Proc, c: Choice)
    requires WorldOk(cfg, w) && ProcOk(cfg, w, p) && p.SignInsert? && c.fault != Fails
    ensures Sound(cfg, w, SignStep(w, p, c))
  {
    PendingTxKeeps(w.db, p.oid, c.now);
    PendingTxRows(w.db, p.oid, c.now);
    PendingOnlyKeepsWorld(cfg, w, PendingTx(w.db, p.oid, c.now));
  }

  lemma SignUrlSound(cfg: Config, w: World, p: Proc, c: Choice)
    requires WorldOk(cfg, w) && ProcOk(cfg, w, p) && p.SignUrl? && c.fault != Fails
    ensures Sound(cfg, w, SignStep(w, p, c))
  {
    EvolvesRefl(cfg, w);
    NamedUri(cfg, p.b, p.oid);
    var w' := SignStep(w, p, c).0;
    forall id | id in w'.db.objects ensures RowOk(cfg, w', w'.db.objects[id]) {
      assert RowOk(cfg, w, w.db.objects[id]);
    }
    forall u | u in w'.store ensures CellOk(cfg, w', u) {
      assert CellOk(cfg, w, u);
    }
  }

  lemma SignSound(cfg: Config, w: World, p: Proc, c: Choice)
    requires WorldOk(cfg, w) && ProcOk(cfg, w, p) && (p.SignLookup? || p.SignInsert? || p.SignUrl?)
    ensures Sound(cfg, w, SignStep(w, p, c))
  {
    if c.fault == Fails {
      StayCode(cfg, w, 500);
    } else if p.SignLookup? {
      Stay(cfg, w, SignStep(w, p, c).1);
    } else if p.SignInsert? {
      SignInsertSound(cfg, w, p, c);
    } else {
      SignUrlSound(cfg, w, p, c);
    }
  }

  lemma ProxyCheckSound(cfg: Config, w: World, p: Proc, c: Choice)
    requires WorldOk(cfg, w) && ProcOk(cfg, w, p) && p.ProxyCheck?
    ensures Sound(cfg, w, CheckStep(w, p, c))
  {
    if LinkedRow(w.db, p.repo, p.oid).Some? {
      LinkedIsDownloadable(cfg, w, p.repo, p.oid);
    }
    Stay(cfg, w, CheckStep(w, p, c).1);
  }

  lemma HeadCheckSound(cfg: Config, w: World, p: Proc, c: Choice)
    requires WorldOk(cfg, w) && ProcOk(cfg, w, p) && p.HeadCheck?
    ensures Sound(cfg, w, CheckStep(w, p, c))
  {
    NamedUri(cfg, p.b, p.oid);
    if UriOf(p.b, p.oid) in w.store {
      assert CellOk(cfg, w, UriOf(p.b, p.oid));
    }
    Stay(cfg, w, CheckStep(w, p, c).1);
  }

  lemma LoserKnows(cfg: Config, w: World, p: Proc)
    requires ProcOk(cfg, w, p) && p.LoserDelete?
    ensures (FileName(cfg, p.uri) || BucketName(cfg, p.uri)) && OidOf(p.uri) == p.oid
    ensures Lost(w.db, p.oid, p.uri) && Downloadable(w.db, p.repo, p.oid, p.size)
  {}

  lemma NoContentSound(cfg: Config, w: World, w': World, repo: string, oid: Oid, size: int)
    requires WorldOk(cfg, w') && Evolves(cfg, w, w') && Downloadable(w'.db, repo, oid, size)
    ensures Sound(cfg, w, (w', Finished(NoContent(repo, oid, size))))
  {}

  lemma LoserSound(cfg: Config, w: World, p: Proc, c: Choice)
    requires GoodConfig(cfg) && WorldOk(cfg, w) && ProcOk(cfg, w, p) && p.LoserDelete?
    ensures Sound(cfg, w, LoserStep(w, p, c))
  {
    LoserKnows(cfg, w, p);
    if c.fault == Fails {
      EvolvesRefl(cfg, w);
      NoContentSound(cfg, w, w, p.repo, p.oid, p.size);
    } else {
      RemoveKeepsWorld(cfg, w, p.uri);
      NoContentSound(cfg, w, w.(store := Removed(w.store, p.uri)), p.repo, p.oid, p.size);
    }
  }

  lemma FoundRows(cfg: Config, w: World, repo: string, op: Operation, oids: set<Oid>)
    requires WorldOk(cfg, w)
    ensures FoundOk(w.db, repo, op, if op == Download then LinkedRows(w.db, repo, oids) else VerifiedRows(w.db, oids))
  {}

  lemma DownloadEntrySound(cfg: Config, w: World, repo: string, found: map<Oid, Row>, o: BatchObject)
    requires WorldOk(cfg, w) && FoundOk(w.db, repo, Download, found)
    ensures EntryOk(w.db, repo, Download, o, DownloadEntry(found, o))
  {
    if o.oid in found {
      assert RowOk(cfg, w, w.db.objects[Lookup(w.db, o.oid).value]);
    }
  }

  /** The dedup branch meets the very row it was shown, so it neither fails nor
      writes the placeholder. */
  lemma DedupLinks(cfg: Config, w: World, repo: string, op: Operation, found: map<Oid, Row>, o: BatchObject, now: int)
    requires WorldOk(cfg, w) && FoundOk(w.db, repo, op, found) && Dedup(cfg, found, o) && ValidOid(o.oid)
    ensures var (db', r) := LinkTx(w.db, repo, o.oid, o.size, PLACEHOLDER, now);
            && r == Ok(found[o.oid].uri.GetOr("")) && Canonical(w.db, o.oid) == Some(r.value)
            && FirstWriterWins(w.db, db', repo, o.oid, o.size, PLACEHOLDER, r.value)
            && WorldOk(cfg, w.(db := db')) && Evolves(cfg, w, w.(db := db'))
            && Downloadable(db', repo, o.oid, o.size)
  {
    var row := w.db.objects[Lookup(w.db, o.oid).value];
    assert RowOk(cfg, w, row) && found[o.oid].size == row.size == Some(o.size);
    LinkTxMeaning(w.db, repo, o.oid, o.size, PLACEHOLDER, now);
    var (db', r) := LinkTx(w.db, repo, o.oid, o.size, PLACEHOLDER, now);
    assert !Clash(w.db, o.oid, o.size);
    TxKeepsWorld(cfg, w, db', repo, o.oid, o.size, PLACEHOLDER, r.value);
  }

  lemma UploadEntryStays(cfg: Config, w: World, repo: string, found: map<Oid, Row>, o: BatchObject, c: Choice)
    requires c.fault == Fails || !Dedup(cfg, found, o)
    ensures var (db', e) := UploadEntry(cfg, w.db, repo, found, o, c);
            db' == w.db && w.(db := db') == w && EntryOk(db', repo, Upload, o, e)
  {}

  lemma UploadEntryLinks(cfg: Config, w: World, repo: string, found: map<Oid, Row>, o: BatchObject, c: Choice)
    requires c.fault != Fails && Dedup(cfg, found, o)
    requires LinkTx(w.db, repo, o.oid, o.size, PLACEHOLDER, c.now).1.Ok?
    requires Downloadable(LinkTx(w.db, repo, o.oid, o.size, PLACEHOLDER, c.now).0, repo, o.oid, o.size)
    ensures var (db', e) := UploadEntry(cfg, w.db, repo, found, o, c);
            db' == LinkTx(w.db, repo, o.oid, o.size, PLACEHOLDER, c.now).0 && EntryOk(db', repo, Upload, o, e)
  {}

  lemma UploadEntrySound(cfg: Config, w: World, repo: string, found: map<Oid, Row>, o: BatchObject, c: Choice)
    requires WorldOk(cfg, w) && FoundOk(w.db, repo, Upload, found) && ValidOid(o.oid)
    ensures var (db', e) := UploadEntry(cfg, w.db, repo, found, o, c);
            && WorldOk(cfg, w.(db := db')) && Evolves(cfg, w, w.(db := db'))
            && EntryOk(db', repo, Upload, o, e)
  {
    if c.fault == Fails || !Dedup(cfg, found, o) {
      EvolvesRefl(cfg, w);
      UploadEntryStays(cfg, w, repo, found, o, c);
    } else {
      DedupLinks(cfg, w, repo, Upload, found, o, c.now);
      UploadEntryLinks(cfg, w, repo, found, o, c);
    }
  }

  lemma BatchLookupSound(cfg: Config, w: World, p: Proc, c: Choice)
    requires WorldOk(cfg, w) && ProcOk(cfg, w, p) && p.BatchLookup?
    ensures Sound(cfg, w, BatchStep(cfg, w, p, c))
  {
    FoundRows(cfg, w, p.repo, p.op, OidsOf(p.objects));
    Stay(cfg, w, BatchStep(cfg, w, p, c).1);
  }

  lemma BatchUploadSound(cfg: Config, w: World, p: Proc, c: Choice)
    requires WorldOk(cfg, w) && ProcOk(cfg, w, p) && p.BatchEntries? && |p.entries| < |p.objects| && p.op == Upload
    ensures Sound(cfg, w, BatchStep(cfg, w, p, c))
  {
    var o := p.objects[|p.entries|];
    UploadEntrySound(cfg, w, p.repo, p.found, o, c);
    var db' := UploadEntry(cfg, w.db, p.repo, p.found, o, c).0;
    FoundStays(w.db, db', p.repo, p.op, p.found);
    EntriesStay(w.db, db', p.repo, p.op, p.objects, p.entries);
  }

  lemma BatchDownloadSound(cfg: Config, w: World, p: Proc, c: Choice)
    requires WorldOk(cfg, w) && ProcOk(cfg, w, p) && p.BatchEntries? && |p.entries| < |p.objects| && p.op == Download
    ensures Sound(cfg, w, BatchStep(cfg, w, p, c))
  {
    DownloadEntrySound(cfg, w, p.repo, p.found, p.objects[|p.entries|]);
    Stay(cfg, w, BatchStep(cfg, w, p, c).1);
  }

  lemma BatchEndSound(cfg: Config, w: World, p: Proc, c: Choice)
    requires WorldOk(cfg, w) && ProcOk(cfg, w, p) && p.BatchEntries? && |p.entries| >= |p.objects|
    ensures Sound(cfg, w, BatchStep(cfg, w, p, c))
  {
    Stay(cfg, w, Finished(BatchReply(p.repo, p.op, p.objects, p.entries)));
  }

  lemma BatchEntriesSound(cfg: Config, w: World, p: Proc, c: Choice)
    requires WorldOk(cfg, w) && ProcOk(cfg, w, p) && p.BatchEntries?
    ensures Sound(cfg, w, BatchStep(cfg, w, p, c))
  {
    if |p.entries| >= |p.objects| {
      BatchEndSound(cfg, w, p, c);
    } else if p.op == Download {
      BatchDownloadSound(cfg, w, p, c);
    } else {
      BatchUploadSound(cfg, w, p, c);
    }
  }

  lemma GetLookupSound(cfg: Config, w: World, p: Proc, c: Choice)
    requires WorldOk(cfg, w) && ProcOk(cfg, w, p) && p.GetLookup?
    ensures Sound(cfg, w, GetStep(w, p, c))
  {
    if LinkedRow(w.db, p.repo, p.oid).Some? {
      LinkedIsDownloadable(cfg, w, p.repo, p.oid);
    }
    Stay(cfg, w, GetStep(w, p, c).1);
  }

  lemma GetOpenReply(cfg: Config, w: World, p: Proc, c: Choice)
    requires WorldOk(cfg, w) && ProcOk(cfg, w, p) && p.GetOpen?
    ensures GetStep(w, p, c).0 == w && GetStep(w, p, c).1.Finished? && ReplyOk(cfg, w, GetStep(w, p, c).1.reply)
  {
    CanonicalCell(cfg, w, p.oid, p.uri);
  }

  lemma GetOpenSound(cfg: Config, w: World, p: Proc, c: Choice)
    requires WorldOk(cfg, w) && ProcOk(cfg, w, p) && p.GetOpen?
    ensures Sound(cfg, w, GetStep(w, p, c))
  {
    GetOpenReply(cfg, w, p, c);
    Stay(cfg, w, Finished(GetStep(w, p, c).1.reply));
  }

  /** A swept row is pending, so its targets are bucket names of its own object. */
  lemma OrphanTargets(cfg: Config, w: World, ids: seq<nat>)
    requires GoodConfig(cfg) && WorldOk(cfg, w)
    requires forall id | id in ids :: id in w.db.objects && Pending(w.db.objects[id])
    ensures forall u | u in AllTargets(cfg.janitor, w.db, ids) ::
              BucketName(cfg, u) && exists id :: id in ids && OidOf(u) == w.db.objects[id].oid
  {
    forall u | u in AllTargets(cfg.janitor, w.db, ids)
      ensures BucketName(cfg, u) && exists id :: id in ids && OidOf(u) == w.db.objects[id].oid
    {
      var id :| id in ids && u in Targets(cfg.janitor, w.db.objects[id]);
      var row := w.db.objects[id];
      assert RowOk(cfg, w, row) && RowKept(w.db, id);
      var b :| b in cfg.janitor && b.Bucket? && u == UriOf(b, row.oid);
      NamedUri(cfg, b, row.oid);
    }
  }

  lemma OrphansRemoved(cfg: Config, w: World, c: Choice)
    requires WorldOk(cfg, w) && Selected(w.db, true, c)
    ensures WorldOk(cfg, w.(db := Deleted(w.db, ToSet(c.ids)))) && Evolves(cfg, w, w.(db := Deleted(w.db, ToSet(c.ids))))
  {
    OrphanSweepKeeps(w.db, c.ids, c.now - ORPHAN_AGE, SWEEP_BATCH_SIZE, c.locked);
    PendingOnlyKeepsWorld(cfg, w, Deleted(w.db, ToSet(c.ids)));
  }

  lemma SelectedArePending(db: Tables, c: Choice)
    requires Selected(db, true, c)
    ensures forall id | id in c.ids :: Pending(db.objects[id])
  {
    forall id | id in c.ids ensures Pending(db.objects[id]) {
      assert id in ToSet(c.ids);
    }
  }

  lemma SweepOrphansSound(cfg: Config, w: World, c: Choice)
    requires GoodConfig(cfg) && WorldOk(cfg, w) && c.fault != Fails && Selected(w.db, true, c)
    ensures Sound(cfg, w, SweepStep(cfg, w, SweepSelect(true), c))
  {
    SelectedArePending(w.db, c);
    OrphanTargets(cfg, w, c.ids);
    OrphansRemoved(cfg, w, c);
  }

  lemma SweepUnreferencedSound(cfg: Config, w: World, c: Choice)
    requires WorldOk(cfg, w) && c.fault != Fails && Selected(w.db, false, c)
    ensures Sound(cfg, w, SweepStep(cfg, w, SweepSelect(false), c))
  {
    NothingUnreferenced(w.db, c.ids, SWEEP_BATCH_SIZE, c.locked);
    assert Deleted(w.db, ToSet(c.ids)).objects == w.db.objects;
    Stay(cfg, w, SweepStep(cfg, w, SweepSelect(false), c).1);
  }

  lemma SweepSelectSound(cfg: Config, w: World, p: Proc, c: Choice)
    requires GoodConfig(cfg) && WorldOk(cfg, w) && ProcOk(cfg, w, p) && p.SweepSelect?
    ensures Sound(cfg, w, SweepStep(cfg, w, p, c))
  {
    if c.fault == Fails {
      Stay(cfg, w, Finished(Swept));
    } else if !Selected(w.db, p.orphans, c) {
      Stay(cfg, w, p);
    } else if p.orphans {
      SweepOrphansSound(cfg, w, c);
    } else {
      SweepUnreferencedSound(cfg, w, c);
    }
  }

  lemma SweepDeleteSound(cfg: Config, w: World, p: Proc, c: Choice)
    requires GoodConfig(cfg) && WorldOk(cfg, w) && ProcOk(cfg, w, p) && p.SweepDelete?
    ensures Sound(cfg, w, SweepStep(cfg, w, p, c))
  {
    if p.uris == [] {
      Stay(cfg, w, Finished(Swept));
    } else if c.fault == Fails {
      Stay(cfg, w, SweepDelete(p.uris[1..]));
    } else {
      RemoveKeepsWorld(cfg, w, p.uris[0]);
    }
  }

  lemma UploadSound(cfg: Config, w: World, p: Proc, c: Choice)
    requires GoodConfig(cfg) && WorldOk(cfg, w) && ProcOk(cfg, w, p)
    requires p.PutStat? || p.PutCopy? || p.PutLink? || p.SignLookup? || p.SignInsert? || p.SignUrl? || p.LoserDelete?
    ensures Sound(cfg, w, Act(cfg, w, p, c))
  {
    match p
    case PutStat(_, _, _, _, _) => StatSound(cfg, w, p, c);
    case PutCopy(_, _, _, _, _) => CopySound(cfg, w, p, c);
    case PutLink(_, _, _, _) => LinkSound(cfg, w, p, c);
    case LoserDelete(_, _, _, _) => LoserSound(cfg, w, p, c);
    case _ => SignSound(cfg, w, p, c);
  }

  lemma ReadSound(cfg: Config, w: World, p: Proc, c: Choice)
    requires GoodConfig(cfg) && WorldOk(cfg, w) && ProcOk(cfg, w, p)
    requires p.ProxyCheck? || p.HeadCheck? || p.MarkVerified? || p.GetLookup? || p.GetOpen?
    ensures Sound(cfg, w, Act(cfg, w, p, c))
  {
    match p
    case ProxyCheck(_, _, _) => ProxyCheckSound(cfg, w, p, c);
    case HeadCheck(_, _, _, _) => HeadCheckSound(cfg, w, p, c);
    case MarkVerified(_, _, _, _) => MarkSound(cfg, w, p, c);
    case GetLookup(_, _, _) => GetLookupSound(cfg, w, p, c);
    case GetOpen(_, _, _) => GetOpenSound(cfg, w, p, c);
  }

  lemma ActSound(cfg: Config, w: World, p: Proc, c: Choice)
    requires GoodConfig(cfg) && WorldOk(cfg, w) && ProcOk(cfg, w, p)
    ensures Sound(cfg, w, Act(cfg, w, p, c))
  {
    if p.ProxyCheck? || p.HeadCheck? || p.MarkVerified? || p.GetLookup? || p.GetOpen? {
      ReadSound(cfg, w, p, c);
    } else if p.BatchLookup? {
      BatchLookupSound(cfg, w, p, c);
    } else if p.BatchEntries? {
      BatchEntriesSound(cfg, w, p, c);
    } else if p.SweepSelect? {
      SweepSelectSound(cfg, w, p, c);
    } else if p.SweepDelete? {
      SweepDeleteSound(cfg, w, p, c);
    } else if p.Finished? {
      EvolvesRefl(cfg, w);
    } else {
      UploadSound(cfg, w, p, c);
    }
  }

  lemma AdmitSound(cfg: Config, w: World, request: Request)
    requires WorldOk(cfg, w)
    ensures ProcOk(cfg, w, Admit(cfg, request))
  {}

  lemma ClientPutSound(cfg: Config, w: World, t: Ticket, data: Bytes)
    requires WorldOk(cfg, w) && Accepts(cfg, w, t, data)
    ensures WorldOk(cfg, w.(store := w.store[t.uri := data])) && Evolves(cfg, w, w.(store := w.store[t.uri := data]))
  {
    WriteKeepsWorld(cfg, w, t.uri, data);
  }

  lemma NextKeeps(cfg: Config, s: State, e: Event)
    requires GoodConfig(cfg) && Inv(cfg, s)
    ensures Inv(cfg, Next(cfg, s, e)) && Evolves(cfg, s.world, Next(cfg, s, e).world)
  {
    var s' := Next(cfg, s, e);
    EvolvesRefl(cfg, s.world);
    match e
    case Arrive(_, request) => AdmitSound(cfg, s.world, request);
    case Crash(_) =>
    case ClientPut(t, data) =>
      if Accepts(cfg, s.world, t, data) { ClientPutSound(cfg, s.world, t, data); }
      OthersStay(cfg, s, s');
    case Advance(pid, c) =>
      if pid in s.procs {
        ActSound(cfg, s.world, s.procs[pid], c);
        OthersStay(cfg, State(s.world, s.procs), State(s'.world, s.procs));
      }
  }

  lemma OthersStay(cfg: Config, s: State, s': State)
    requires Inv(cfg, s) && s'.procs == s.procs && WellKept(s'.world.db) && Evolves(cfg, s.world, s'.world)
    ensures forall pid | pid in s'.procs :: ProcOk(cfg, s'.world, s'.procs[pid])
  {
    forall pid | pid in s'.procs ensures ProcOk(cfg, s'.world, s'.procs[pid]) {
      ProcStays(cfg, s.world, s'.world, s.procs[pid]);
    }
  }

  lemma {:induction false} RunKeeps(cfg: Config, s: State, events: seq<Event>)
    requires GoodConfig(cfg) && Inv(cfg, s)
    ensures Inv(cfg, Run(cfg, s, events)) && Evolves(cfg, s.world, Run(cfg, s, events).world)
    decreases |events|
  {
    EvolvesRefl(cfg, s.world);
    if events != [] {
      var s1 := Next(cfg, s, events[0]);
      NextKeeps(cfg, s, events[0]);
      RunKeeps(cfg, s1, events[1..]);
      EvolvesTrans(cfg, s.world, s1.world, Run(cfg, s, events).world);
    }
  }
}
