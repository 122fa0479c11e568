/** The inductive invariant of the state machine. It relates both tables, the
    store, and what every request in flight has captured; each part is stable
    under the steps of all other requests (Evolves). */
module Safety {
  import opened Wrappers
  import opened Uris
  import opened Tables
  import opened Sweeps
  import opened Streams
  import opened Lifecycle

  /** Backends as the configuration demands them; the janitor has some of them. */
  ghost predicate GoodConfig(cfg: Config) {
    && (forall h | h in cfg.backends :: WellFormed(cfg.backends[h]))
    && (forall b | b in cfg.janitor :: b in cfg.backends.Values)
  }

  // ------------------------------------------------------------ names

  function OidOf(uri: Uri): Oid
    requires |uri| >= 64
  {
    uri[|uri| - 64..]
  }

  /** `uri` is the name some backend of that kind gives to a valid object id. */
  ghost predicate NamedBy(cfg: Config, uri: Uri, bucket: bool) {
    && |uri| >= 64 && ValidOid(OidOf(uri))
    && exists h :: h in cfg.backends && cfg.backends[h].Bucket? == bucket && uri == UriOf(cfg.backends[h], OidOf(uri))
  }

  ghost predicate FileName(cfg: Config, uri: Uri) {
    NamedBy(cfg, uri, false)
  }

  ghost predicate BucketName(cfg: Config, uri: Uri) {
    NamedBy(cfg, uri, true)
  }

  lemma NamedUri(cfg: Config, b: Backend, oid: Oid)
    requires b in cfg.backends.Values && ValidOid(oid)
    ensures |UriOf(b, oid)| >= 64 && OidOf(UriOf(b, oid)) == oid
    ensures NamedBy(cfg, UriOf(b, oid), b.Bucket?)
  {
    UriEndsInOid(b, oid);
    var h :| h in cfg.backends && cfg.backends[h] == b;
  }

  lemma NeverBoth(cfg: Config, uri: Uri)
    requires GoodConfig(cfg)
    ensures !(FileName(cfg, uri) && BucketName(cfg, uri))
  {
    if FileName(cfg, uri) {
      var f :| f in cfg.backends && cfg.backends[f].Filesystem? && uri == UriOf(cfg.backends[f], OidOf(uri));
      forall h | h in cfg.backends && cfg.backends[h].Bucket?
        ensures uri != UriOf(cfg.backends[h], OidOf(uri))
      {
        FilesAndBucketsAreApart(cfg.backends[f], cfg.backends[h], OidOf(uri), OidOf(uri));
      }
    }
  }

  // ------------------------------------------------------------ facts about an object

  ghost predicate IsVerified(db: Tables, oid: Oid) {
    Lookup(db, oid).Some? && !Pending(db.objects[Lookup(db, oid).value])
  }

  /** The canonical URI of a verified object. */
  ghost function Canonical(db: Tables, oid: Oid): Option<Uri> {
    if IsVerified(db, oid) then db.objects[Lookup(db, oid).value].uri else None
  }

  /** A download batch of `repo` finds the object at this size. */
  ghost predicate Downloadable(db: Tables, repo: string, oid: Oid, size: int) {
    Lookup(db, oid).Some? && Published(db, repo, oid, size, Lookup(db, oid).value)
  }

  /** The race for `oid` is over and `uri` did not win it. */
  ghost predicate Lost(db: Tables, oid: Oid, uri: Uri) {
    IsVerified(db, oid) && Canonical(db, oid) != Some(uri)
  }

  /** A verified row captured earlier is still there, unchanged. */
  ghost predicate StillThere(db: Tables, oid: Oid, row: Row) {
    IsVerified(db, oid) && SameFacts(row, db.objects[Lookup(db, oid).value])
  }

  lemma VerifiedStays(db: Tables, db': Tables, oid: Oid)
    requires WellKept(db) && WellKept(db') && Grows(db, db') && IsVerified(db, oid)
    ensures IsVerified(db', oid) && Lookup(db', oid) == Lookup(db, oid)
    ensures SameFacts(db.objects[Lookup(db, oid).value], db'.objects[Lookup(db, oid).value])
  {
    LookupUnique(db', oid, Lookup(db, oid).value);
  }

  // ------------------------------------------------------------ the world

  predicate SizeOk(cfg: Config, size: int) {
    0 <= size && !TooLarge(cfg, size)
  }

  /** A verified row has a size within the limit and the name of its own
      object; when a filesystem backend gave the name, the file is there. */
  ghost predicate RowOk(cfg: Config, w: World, row: Row) {
    && ValidOid(row.oid)
    && (!Pending(row) ==>
          && row.size.Some? && SizeOk(cfg, row.size.value)
          && row.uri.Some? && (FileName(cfg, row.uri.value) || BucketName(cfg, row.uri.value))
          && OidOf(row.uri.value) == row.oid
          && (FileName(cfg, row.uri.value) ==> row.uri.value in w.store))
  }

  /** Every stored object hashes to the id in its name; a bucket object also
      has an admissible length. */
  ghost predicate CellOk(cfg: Config, w: World, uri: Uri)
    requires uri in w.store
  {
    && (FileName(cfg, uri) || BucketName(cfg, uri))
    && cfg.sha(w.store[uri]) == OidOf(uri)
    && (BucketName(cfg, uri) ==> SizeOk(cfg, |w.store[uri]|))
  }

  ghost predicate TicketOk(cfg: Config, t: Ticket) {
    BucketName(cfg, t.uri) && OidOf(t.uri) == t.oid && SizeOk(cfg, t.size)
  }

  ghost predicate WorldOk(cfg: Config, w: World) {
    && WellKept(w.db)
    && (forall id | id in w.db.objects :: RowOk(cfg, w, w.db.objects[id]))
    && (forall uri | uri in w.store :: CellOk(cfg, w, uri))
    && (forall t | t in w.tickets :: TicketOk(cfg, t))
  }

  /** What any step may do to the world. A file disappears only after its object
      is verified under another name. */
  ghost predicate Evolves(cfg: Config, w: World, w': World) {
    && Grows(w.db, w'.db)
    && w.tickets <= w'.tickets
    && forall uri | uri in w.store && FileName(cfg, uri) :: uri in w'.store || Lost(w'.db, OidOf(uri), uri)
  }

  // ------------------------------------------------------------ requests in flight

  ghost predicate Reaches(cfg: Config, b: Backend, bucket: bool) {
    b in cfg.backends.Values && b.Bucket? == bucket
  }

  /** An entry that promises the repository a later download. */
  predicate Grants(op: Operation, e: Entry) {
    e.answer == DownloadAction || (op == Upload && e.answer == NoAnswer)
  }

  ghost predicate EntryOk(db: Tables, repo: string, op: Operation, o: BatchObject, e: Entry) {
    && e.oid == o.oid && e.size == o.size
    && (Grants(op, e) ==> Downloadable(db, repo, o.oid, o.size))
  }

  ghost predicate EntriesOk(db: Tables, repo: string, op: Operation, objects: seq<BatchObject>, entries: seq<Entry>) {
    && |entries| <= |objects|
    && forall i | 0 <= i < |entries| :: EntryOk(db, repo, op, objects[i], entries[i])
  }

  ghost predicate FoundOk(db: Tables, repo: string, op: Operation, found: map<Oid, Row>) {
    forall oid | oid in found ::
      && StillThere(db, oid, found[oid])
      && (op == Download ==> Link(repo, Lookup(db, oid).value) in db.links)
  }

  /** After Put: the bytes are there, or the object is verified under another name. */
  ghost predicate Backed(cfg: Config, w: World, oid: Oid, uri: Uri) {
    && FileName(cfg, uri) && OidOf(uri) == oid
    && (uri in w.store || Lost(w.db, oid, uri))
  }

  ghost predicate ReplyOk(cfg: Config, w: World, reply: Reply) {
    match reply
    case NoContent(repo, oid, size) => Downloadable(w.db, repo, oid, size)
    case BatchReply(repo, op, objects, entries) =>
      |entries| == |objects| && EntriesOk(w.db, repo, op, objects, entries)
    case Body(oid, data) => cfg.sha(data) == oid
    case _ => true
  }

  ghost predicate ProcOk(cfg: Config, w: World, p: Proc) {
    && Shaped(p)
    && match p
       case PutStat(_, b, _, size, _) => Reaches(cfg, b, false) && SizeOk(cfg, size)
       case PutCopy(_, b, _, size, _) => Reaches(cfg, b, false) && SizeOk(cfg, size)
       case PutLink(_, oid, size, uri) => SizeOk(cfg, size) && Backed(cfg, w, oid, uri)
       case SignLookup(b, _, size) => Reaches(cfg, b, true) && SizeOk(cfg, size)
       case SignInsert(b, _, size) => Reaches(cfg, b, true) && SizeOk(cfg, size)
       case SignUrl(b, _, size) => Reaches(cfg, b, true) && SizeOk(cfg, size)
       case HeadCheck(_, b, _, _) => Reaches(cfg, b, true)
       case MarkVerified(_, oid, size, uri) => SizeOk(cfg, size) && BucketName(cfg, uri) && OidOf(uri) == oid
       case LoserDelete(repo, oid, size, uri) =>
         && (FileName(cfg, uri) || BucketName(cfg, uri)) && OidOf(uri) == oid
         && Lost(w.db, oid, uri) && Downloadable(w.db, repo, oid, size)
       case BatchLookup(_, op, objects) => op != OtherOperation && AllValid(objects)
       case BatchEntries(repo, op, objects, found, entries) =>
         op != OtherOperation && AllValid(objects) && FoundOk(w.db, repo, op, found) && EntriesOk(w.db, repo, op, objects, entries)
       case GetLookup(_, b, oid) => ValidOid(oid) && b in cfg.backends.Values
       case GetOpen(b, oid, uri) => b in cfg.backends.Values && Canonical(w.db, oid) == Some(uri)
       case SweepDelete(uris) => forall uri | uri in uris :: BucketName(cfg, uri)
       case Finished(reply) => ReplyOk(cfg, w, reply)
       case _ => true
  }

  predicate AllValid(objects: seq<BatchObject>) {
    forall i | 0 <= i < |objects| :: ValidOid(objects[i].oid)
  }

  ghost predicate Inv(cfg: Config, s: State) {
    && WorldOk(cfg, s.world)
    && forall pid | pid in s.procs :: ProcOk(cfg, s.world, s.procs[pid])
  }

  // ------------------------------------------------------------ stability

  lemma LostStays(db: Tables, db': Tables, oid: Oid, uri: Uri)
    requires WellKept(db) && WellKept(db') && Grows(db, db') && Lost(db, oid, uri)
    ensures Lost(db', oid, uri)
  {
    VerifiedStays(db, db', oid);
  }

  lemma DownloadableStays(db: Tables, db': Tables, repo: string, oid: Oid, size: int)
    requires WellKept(db) && WellKept(db') && Grows(db, db') && Downloadable(db, repo, oid, size)
    ensures Downloadable(db', repo, oid, size)
  {
    VerifiedStays(db, db', oid);
  }

  lemma EntriesStay(db: Tables, db': Tables, repo: string, op: Operation, objects: seq<BatchObject>, entries: seq<Entry>)
    requires WellKept(db) && WellKept(db') && Grows(db, db') && EntriesOk(db, repo, op, objects, entries)
    ensures EntriesOk(db', repo, op, objects, entries)
  {
    forall i | 0 <= i < |entries| ensures EntryOk(db', repo, op, objects[i], entries[i]) {
      assert EntryOk(db, repo, op, objects[i], entries[i]);
      if Grants(op, entries[i]) {
        DownloadableStays(db, db', repo, objects[i].oid, objects[i].size);
      }
    }
  }

  lemma FoundStays(db: Tables, db': Tables, repo: string, op: Operation, found: map<Oid, Row>)
    requires WellKept(db) && WellKept(db') && Grows(db, db') && FoundOk(db, repo, op, found)
    ensures FoundOk(db', repo, op, found)
  {
    forall oid | oid in found
      ensures StillThere(db', oid, found[oid])
      ensures op == Download ==> Link(repo, Lookup(db', oid).value) in db'.links
    {
      VerifiedStays(db, db', oid);
    }
  }

  lemma BackedStays(cfg: Config, w: World, w': World, oid: Oid, uri: Uri)
    requires WellKept(w.db) && WellKept(w'.db) && Evolves(cfg, w, w') && Backed(cfg, w, oid, uri)
    ensures Backed(cfg, w', oid, uri)
  {
    if Lost(w.db, oid, uri) {
      LostStays(w.db, w'.db, oid, uri);
    }
  }

  /** What a request has captured survives every step of the others. */
  lemma ProcStays(cfg: Config, w: World, w': World, p: Proc)
    requires WellKept(w.db) && WellKept(w'.db) && Evolves(cfg, w, w') && ProcOk(cfg, w, p)
    ensures ProcOk(cfg, w', p)
  {
    match p
    case PutLink(_, oid, _, uri) => BackedStays(cfg, w, w', oid, uri);
    case LoserDelete(repo, oid, size, uri) =>
      LostStays(w.db, w'.db, oid, uri);
      DownloadableStays(w.db, w'.db, repo, oid, size);
    case BatchEntries(repo, op, objects, found, entries) =>
      FoundStays(w.db, w'.db, repo, op, found);
      EntriesStay(w.db, w'.db, repo, op, objects, entries);
    case GetOpen(_, oid, _) => VerifiedStays(w.db, w'.db, oid);
    case Finished(NoContent(repo, oid, size)) => DownloadableStays(w.db, w'.db, repo, oid, size);
    case Finished(BatchReply(repo, op, objects, entries)) => EntriesStay(w.db, w'.db, repo, op, objects, entries);
    case _ =>
  }

  lemma EvolvesTrans(cfg: Config, a: World, b: World, c: World)
    requires WellKept(a.db) && WellKept(b.db) && WellKept(c.db)
    requires Evolves(cfg, a, b) && Evolves(cfg, b, c)
    ensures Evolves(cfg, a, c)
  {
    GrowsTrans(a.db, b.db, c.db);
    forall uri | uri in a.store && FileName(cfg, uri)
      ensures uri in c.store || Lost(c.db, OidOf(uri), uri)
    {
      if uri !in b.store {
        LostStays(b.db, c.db, OidOf(uri), uri);
      }
    }
  }

  // ------------------------------------------------------------ worlds step by step

  lemma EvolvesRefl(cfg: Config, w: World)
    requires WellKept(w.db)
    ensures Evolves(cfg, w, w)
  {
    forall id | id in w.db.objects ensures id < w.db.nextId {
      assert RowKept(w.db, id);
    }
  }

  /** New tables in which only rows for one object changed, and its verified
      form is sound, keep the world. */
  lemma TxKeepsWorld(cfg: Config, w: World, db': Tables, repo: string, oid: Oid, size: int, offered: Uri, stored: Uri)
    requires WorldOk(cfg, w) && WellKept(db') && Grows(w.db, db')
    requires FirstWriterWins(w.db, db', repo, oid, size, offered, stored)
    requires ValidOid(oid) && SizeOk(cfg, size)
    requires !IsVerified(w.db, oid) ==>
               && (FileName(cfg, offered) || BucketName(cfg, offered)) && OidOf(offered) == oid
               && (FileName(cfg, offered) ==> offered in w.store)
    ensures WorldOk(cfg, w.(db := db')) && Evolves(cfg, w, w.(db := db'))
    ensures Downloadable(db', repo, oid, size) && Canonical(db', oid) == Some(stored)
    ensures IsVerified(w.db, oid) ==> Canonical(w.db, oid) == Some(stored)
    ensures !IsVerified(w.db, oid) ==> stored == offered
  {
    var w' := w.(db := db');
    var id := Lookup(db', oid).value;
    forall other | other in db'.objects ensures RowOk(cfg, w', db'.objects[other]) {
      if other != id {
        assert RowOk(cfg, w, w.db.objects[other]);
      } else if IsVerified(w.db, oid) {
        assert RowOk(cfg, w, w.db.objects[id]);
      }
    }
    forall uri | uri in w'.store ensures CellOk(cfg, w', uri) {
      assert CellOk(cfg, w, uri);
    }
  }

  /** Tables whose verified rows are the old ones keep the world. */
  lemma PendingOnlyKeepsWorld(cfg: Config, w: World, db': Tables)
    requires WorldOk(cfg, w) && WellKept(db') && Grows(w.db, db')
    requires forall id | id in db'.objects :: (id in w.db.objects && db'.objects[id] == w.db.objects[id])
                                              || (Pending(db'.objects[id]) && ValidOid(db'.objects[id].oid))
    ensures WorldOk(cfg, w.(db := db')) && Evolves(cfg, w, w.(db := db'))
  {
    var w' := w.(db := db');
    forall id | id in db'.objects ensures RowOk(cfg, w', db'.objects[id]) {
      if !Pending(db'.objects[id]) {
        assert RowOk(cfg, w, w.db.objects[id]);
      }
    }
    forall uri | uri in w'.store ensures CellOk(cfg, w', uri) {
      assert CellOk(cfg, w, uri);
    }
  }

  /** Storing sound bytes keeps the world. */
  lemma WriteKeepsWorld(cfg: Config, w: World, uri: Uri, data: Bytes)
    requires WorldOk(cfg, w)
    requires FileName(cfg, uri) || BucketName(cfg, uri)
    requires cfg.sha(data) == OidOf(uri) && (BucketName(cfg, uri) ==> SizeOk(cfg, |data|))
    ensures WorldOk(cfg, w.(store := w.store[uri := data])) && Evolves(cfg, w, w.(store := w.store[uri := data]))
  {
    var w' := w.(store := w.store[uri := data]);
    EvolvesRefl(cfg, w);
    forall id | id in w'.db.objects ensures RowOk(cfg, w', w'.db.objects[id]) {
      assert RowOk(cfg, w, w.db.objects[id]);
    }
    forall u | u in w'.store ensures CellOk(cfg, w', u) {
      if u != uri { assert CellOk(cfg, w, u); }
    }
  }

  /** Deleting a bucket object, or the loser of a race, keeps the world. */
  lemma RemoveKeepsWorld(cfg: Config, w: World, uri: Uri)
    requires GoodConfig(cfg) && WorldOk(cfg, w)
    requires BucketName(cfg, uri) || (FileName(cfg, uri) && Lost(w.db, OidOf(uri), uri))
    ensures WorldOk(cfg, w.(store := Removed(w.store, uri))) && Evolves(cfg, w, w.(store := Removed(w.store, uri)))
  {
    var w' := w.(store := Removed(w.store, uri));
    EvolvesRefl(cfg, w);
    NeverBoth(cfg, uri);
    forall id | id in w'.db.objects ensures RowOk(cfg, w', w'.db.objects[id]) {
      var row := w.db.objects[id];
      assert RowOk(cfg, w, row);
      LookupUnique(w.db, row.oid, id);
    }
    forall u | u in w'.store ensures CellOk(cfg, w', u) {
      assert CellOk(cfg, w, u);
    }
  }
}
