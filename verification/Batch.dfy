/** The batch handler: its loop over the requested objects, and what a whole
    batch does to the tables. */
module Batch {
  import opened Wrappers
  import opened Uris
  import opened Tables
  import opened Sweeps
  import opened Lifecycle
  import opened Safety
  import opened Database

  const BASIC: string := "basic"

  predicate OffersBasic(transfers: seq<string>) {
    |transfers| == 0 || BASIC in transfers
  }

  /** The first k rounds of the loop, made of the state machine's own steps:
      the tables and the entries after them. */
  ghost function Rounds(cfg: Config, db: Tables, repo: string, op: Operation, found: map<Oid, Row>,
                        objects: seq<BatchObject>, faults: seq<Fault>, now: int, k: nat): (r: (Tables, seq<Entry>))
    requires k <= |objects| && k <= |faults|
    ensures |r.1| == k
  {
    if k == 0 then (db, [])
    else
      var (db1, entries) := Rounds(cfg, db, repo, op, found, objects, faults, now, k - 1);
      var (db2, entry) := Round(cfg, db1, repo, op, found, objects[k - 1], faults[k - 1], now);
      (db2, entries + [entry])
  }

  ghost function Round(cfg: Config, db: Tables, repo: string, op: Operation, found: map<Oid, Row>, o: BatchObject, fault: Fault, now: int): (Tables, Entry) {
    if op == Download then (db, DownloadEntry(found, o)) else UploadEntry(cfg, db, repo, found, o, Choice(now, fault, [], {}))
  }

  // ------------------------------------------------------------ the handler

  method CheckOids(objects: seq<BatchObject>) returns (ok: bool)
    ensures ok <==> forall i :: 0 <= i < |objects| ==> ValidOid(objects[i].oid)
  {
    for i := 0 to |objects|
      invariant forall j :: 0 <= j < i ==> ValidOid(objects[j].oid)
    {
      if !ValidOid(objects[i].oid) {
        return false;
      }
    }
    return true;
  }

  method RequestedOids(objects: seq<BatchObject>) returns (oids: seq<Oid>)
    ensures |oids| == |objects| && forall i :: 0 <= i < |objects| ==> oids[i] == objects[i].oid
    ensures ToSet(oids) == OidsOf(objects)
  {
    oids := [];
    for i := 0 to |objects|
      invariant |oids| == i && forall j :: 0 <= j < i ==> oids[j] == objects[j].oid
    {
      oids := oids + [objects[i].oid];
    }
    forall oid | oid in OidsOf(objects) ensures oid in oids {
      var i :| 0 <= i < |objects| && objects[i].oid == oid;
      assert oids[i] == oid;
    }
  }

  /** One round for an upload; `failing` is the statement that fails, 0 for none. */
  method AnswerUpload(cfg: Config, db: Database, repo: string, found: map<Oid, Row>, o: BatchObject, now: int, failing: nat) returns (entry: Entry, ghost fault: Fault)
    requires WellKept(db.Snapshot())
    modifies db
    ensures WellKept(db.Snapshot())
    ensures fault != LostReply && (fault == Fails ==> failing > 0)
    ensures (db.Snapshot(), entry) == Round(cfg, old(db.Snapshot()), repo, Upload, found, o, fault, now)
  {
    fault := NoFault;
    var answer := NoAnswer;
    if cfg.maxObjectSize > 0 && o.size > cfg.maxObjectSize {
      answer := Failure(413);
    } else if o.oid in found && found[o.oid].size.GetOr(-1) == o.size {
      LinkTxMeaning(db.Snapshot(), repo, o.oid, o.size, PLACEHOLDER, now);
      var r := db.LinkObject(repo, o.oid, o.size, PLACEHOLDER, now, failing);
      if r.RolledBack? {
        fault := Fails;
        answer := Failure(500);
      } else if r.result.Err? {
        answer := Failure(500);
      }
    } else if o.oid in found && found[o.oid].size.GetOr(-1) != o.size {
      answer := Failure(409);
    } else {
      answer := UploadActions;
    }
    entry := Entry(o.oid, o.size, answer);
  }

  method AnswerDownload(found: map<Oid, Row>, o: BatchObject) returns (entry: Entry)
    ensures entry == DownloadEntry(found, o)
  {
    var answer := DownloadAction;
    if o.oid !in found {
      answer := Failure(404);
    } else if found[o.oid].size.GetOr(-1) != o.size {
      answer := Failure(422);
    }
    entry := Entry(o.oid, o.size, answer);
  }

  /** The loop over the requested objects. */
  method AnswerAll(cfg: Config, db: Database, repo: string, op: Operation, found: map<Oid, Row>, objects: seq<BatchObject>, now: int, failing: seq<nat>)
    returns (entries: seq<Entry>, ghost faults: seq<Fault>)
    requires WellKept(db.Snapshot()) && |failing| == |objects| && op != OtherOperation
    modifies db
    ensures WellKept(db.Snapshot())
    ensures |faults| == |objects| && forall i :: 0 <= i < |faults| ==> faults[i] != LostReply && (faults[i] == Fails ==> failing[i] > 0)
    ensures (db.Snapshot(), entries) == Rounds(cfg, old(db.Snapshot()), repo, op, found, objects, faults, now, |objects|)
  {
    entries := [];
    faults := [];
    for i := 0 to |objects|
      invariant WellKept(db.Snapshot())
      invariant |faults| == i && forall j :: 0 <= j < i ==> faults[j] != LostReply && (faults[j] == Fails ==> failing[j] > 0)
      invariant (db.Snapshot(), entries) == Rounds(cfg, old(db.Snapshot()), repo, op, found, objects, faults, now, i)
    {
      ghost var before := faults;
      var entry;
      ghost var fault := NoFault;
      if op == Download {
        entry := AnswerDownload(found, objects[i]);
      } else {
        entry, fault := AnswerUpload(cfg, db, repo, found, objects[i], now, failing[i]);
      }
      faults := faults + [fault];
      RoundsPrefix(cfg, old(db.Snapshot()), repo, op, found, objects, before, faults, now, i);
      entries := entries + [entry];
    }
  }

  /** serveBatch. `selected` is the answer of its lookup; `failing` says which
      database statement fails in each round. */
  method ServeBatch(cfg: Config, db: Database, repo: string, perm: Permission, op: Operation, transfers: seq<string>,
                    objects: seq<BatchObject>, selected: seq<nat>, lookupFails: bool, now: int, failing: seq<nat>)
    returns (reply: Reply, ghost faults: seq<Fault>)
    requires WellKept(db.Snapshot()) && |failing| == |objects|
    requires op == Download ==> SelectsLinked(db.Snapshot(), repo, OidsOf(objects), selected)
    requires op == Upload ==> SelectsVerified(db.Snapshot(), OidsOf(objects), selected)
    modifies db
    ensures WellKept(db.Snapshot())
    ensures |faults| == |objects| && forall i :: 0 <= i < |faults| ==> faults[i] != LostReply && (faults[i] == Fails ==> failing[i] > 0)
    ensures var p := Admit(cfg, BatchPost(repo, perm, op, OffersBasic(transfers), objects));
            if p.Finished? then reply == p.reply && db.Snapshot() == old(db.Snapshot())
            else if lookupFails then reply == Code(500) && db.Snapshot() == old(db.Snapshot())
            else
              var found := if op == Download then LinkedRows(old(db.Snapshot()), repo, OidsOf(objects)) else VerifiedRows(old(db.Snapshot()), OidsOf(objects));
              var (db', entries) := Rounds(cfg, old(db.Snapshot()), repo, op, found, objects, faults, now, |objects|);
              reply == BatchReply(repo, op, objects, entries) && db.Snapshot() == db'
  {
    faults := seq(|objects|, _ => NoFault);
    match op {
      case Upload =>
        if perm != Write { return Code(403), faults; }
      case Download =>
      case OtherOperation => return Code(400), faults;
    }
    if |transfers| > 0 && BASIC !in transfers {
      return Code(422), faults;
    }
    var ok := CheckOids(objects);
    if !ok {
      return Code(400), faults;
    }
    if lookupFails {
      return Code(500), faults;
    }
    var oids := RequestedOids(objects);
    var found;
    if op == Download {
      found := db.GetRepoObjectsByOids(repo, oids, selected);
    } else {
      found := db.GetObjectsByOids(oids, selected);
    }
    var entries;
    entries, faults := AnswerAll(cfg, db, repo, op, found, objects, now, failing);
    reply := BatchReply(repo, op, objects, entries);
  }

  lemma {:induction false} RoundsPrefix(cfg: Config, db: Tables, repo: string, op: Operation, found: map<Oid, Row>,
                                        objects: seq<BatchObject>, faults: seq<Fault>, more: seq<Fault>, now: int, k: nat)
    requires k <= |objects| && k <= |faults| && faults <= more
    ensures Rounds(cfg, db, repo, op, found, objects, faults, now, k) == Rounds(cfg, db, repo, op, found, objects, more, now, k)
  {
    if k > 0 {
      RoundsPrefix(cfg, db, repo, op, found, objects, faults, more, now, k - 1);
    }
  }

  // ------------------------------------------------------------ what a batch means

  /** A download batch changes nothing, and answers each object, in order, with
      an action exactly when a verified row of that size is linked. */
  lemma {:induction false} DownloadBatchMeaning(cfg: Config, db: Tables, repo: string, objects: seq<BatchObject>, faults: seq<Fault>, now: int, k: nat)
    requires WellKept(db) && k <= |objects| && k <= |faults|
    ensures var (db', entries) := Rounds(cfg, db, repo, Download, LinkedRows(db, repo, OidsOf(objects)), objects, faults, now, k);
            && db' == db
            && forall i :: 0 <= i < k ==>
                 && entries[i].oid == objects[i].oid && entries[i].size == objects[i].size
                 && (entries[i].answer == DownloadAction <==> Downloadable(db, repo, objects[i].oid, objects[i].size))
                 && (entries[i].answer == Failure(404) <==> LinkedRow(db, repo, objects[i].oid).None?)
                 && entries[i].answer in {DownloadAction, Failure(404), Failure(422)}
  {
    if k > 0 {
      DownloadBatchMeaning(cfg, db, repo, objects, faults, now, k - 1);
      assert objects[k - 1].oid in OidsOf(objects);
      DownloadableIff(db, repo, objects[k - 1], OidsOf(objects));
    }
  }

  lemma DownloadableIff(db: Tables, repo: string, o: BatchObject, oids: set<Oid>)
    requires WellKept(db) && o.oid in oids
    ensures var answer := DownloadEntry(LinkedRows(db, repo, oids), o).answer;
            && (answer == DownloadAction <==> Downloadable(db, repo, o.oid, o.size))
            && (answer == Failure(404) <==> LinkedRow(db, repo, o.oid).None?)
            && answer in {DownloadAction, Failure(404), Failure(422)}
  {
    if Lookup(db, o.oid).Some? {
      assert RowKept(db, Lookup(db, o.oid).value);
    }
  }

  /** The tables with these rows linked to one repository and recounted. */
  function WithLinks(db: Tables, repo: string, ids: set<nat>): Tables {
    var links := db.links + set id | id in ids :: Link(repo, id);
    Tables(map id | id in db.objects :: if id in ids then db.objects[id].(repoCount := |LinksOf(links, id)|) else db.objects[id],
           links, db.nextId)
  }

  /** The verified rows that the first k requested objects name at their own size. */
  ghost function KnownIds(cfg: Config, db: Tables, objects: seq<BatchObject>, k: nat): set<nat>
    requires k <= |objects|
  {
    set id | id in db.objects && exists i :: 0 <= i < k && Known(cfg, db, objects[i], id)
  }

  ghost predicate Known(cfg: Config, db: Tables, o: BatchObject, id: nat) {
    && !TooLarge(cfg, o.size)
    && id in db.objects && !Pending(db.objects[id]) && db.objects[id].oid == o.oid && db.objects[id].size == Some(o.size)
  }

  /** Linking one more known row. The placeholder leaves no trace. */
  lemma LinksOneMore(db: Tables, repo: string, ids: set<nat>, oid: Oid, size: int, now: int, id: nat)
    requires WellKept(db) && ids <= db.objects.Keys
    requires id in db.objects && !Pending(db.objects[id]) && db.objects[id].oid == oid && db.objects[id].size == Some(size)
    ensures LinkTx(WithLinks(db, repo, ids), repo, oid, size, PLACEHOLDER, now) ==
            (WithLinks(db, repo, ids + {id}), Ok(db.objects[id].uri.value))
  {
    assert RowKept(db, id);
    NothingToUpsert(db, repo, ids, oid, size, now, id);
    AttachOneMore(db, repo, ids, id);
  }

  lemma NothingToUpsert(db: Tables, repo: string, ids: set<nat>, oid: Oid, size: int, now: int, id: nat)
    requires UniqueOids(db) && id in db.objects && db.objects[id].oid == oid
    requires db.objects[id].size.Some? && db.objects[id].uri.Some? && db.objects[id].verifiedAt.Some?
    ensures Upserted(WithLinks(db, repo, ids), oid, size, PLACEHOLDER, now) == (WithLinks(db, repo, ids), id)
  {
    var linked := WithLinks(db, repo, ids);
    assert forall other | other in linked.objects :: linked.objects[other].oid == db.objects[other].oid;
    LookupUnique(linked, oid, id);
    assert Coalesced(linked.objects[id], size, PLACEHOLDER, now) == linked.objects[id];
    assert linked.objects[id := linked.objects[id]] == linked.objects;
  }

  lemma OtherCounts(db: Tables, repo: string, ids: set<nat>, id: nat, other: nat)
    requires other in db.objects && other != id
    ensures WithLinks(db, repo, ids + {id}).objects[other] == WithLinks(db, repo, ids).objects[other]
  {
    var links, wider := WithLinks(db, repo, ids).links, WithLinks(db, repo, ids + {id}).links;
    assert LinksOf(wider, other) == LinksOf(links, other);
  }

  lemma LinkedAlready(db: Tables, repo: string, ids: set<nat>, id: nat)
    requires WellKept(db) && id in db.objects && Link(repo, id) in WithLinks(db, repo, ids).links
    ensures WithLinks(db, repo, ids + {id}).links == WithLinks(db, repo, ids).links
    ensures WithLinks(db, repo, ids + {id}).objects[id] == WithLinks(db, repo, ids).objects[id]
  {
    var links, wider := WithLinks(db, repo, ids).links, WithLinks(db, repo, ids + {id}).links;
    assert wider == links;
    if id !in ids {
      assert LinksOf(links, id) == LinksOf(db.links, id);
      assert RowKept(db, id);
    }
  }

  lemma LinkedAnew(db: Tables, repo: string, ids: set<nat>, id: nat)
    requires id in db.objects
    ensures var linked, wider := WithLinks(db, repo, ids), WithLinks(db, repo, ids + {id});
            && wider.links == linked.links + {Link(repo, id)}
            && wider.objects[id] == linked.objects[id].(repoCount := |LinksOf(wider.links, id)|)
  {
    assert (set other | other in ids + {id} :: Link(repo, other)) == (set other | other in ids :: Link(repo, other)) + {Link(repo, id)};
  }

  lemma OthersSame(db: Tables, repo: string, ids: set<nat>, id: nat)
    requires id in db.objects
    ensures var linked, wider := WithLinks(db, repo, ids), WithLinks(db, repo, ids + {id});
            wider.objects == linked.objects[id := wider.objects[id]]
  {
    forall other | other in db.objects && other != id
      ensures WithLinks(db, repo, ids + {id}).objects[other] == WithLinks(db, repo, ids).objects[other]
    {
      OtherCounts(db, repo, ids, id, other);
    }
  }

  lemma AttachOneMore(db: Tables, repo: string, ids: set<nat>, id: nat)
    requires WellKept(db) && id in db.objects
    ensures Attached(WithLinks(db, repo, ids), repo, id) == WithLinks(db, repo, ids + {id})
  {
    var linked, wider := WithLinks(db, repo, ids), WithLinks(db, repo, ids + {id});
    OthersSame(db, repo, ids, id);
    if Link(repo, id) in linked.links {
      LinkedAlready(db, repo, ids, id);
      assert linked.objects[id := linked.objects[id]] == linked.objects;
    } else {
      LinkedAnew(db, repo, ids, id);
    }
  }

  /** What each object of an upload batch is answered, by what was known of it. */
  ghost predicate UploadAnswered(cfg: Config, db: Tables, o: BatchObject, e: Entry) {
    && e.oid == o.oid && e.size == o.size
    && e.answer ==
       if TooLarge(cfg, o.size) then Failure(413)
       else if exists id: nat :: Known(cfg, db, o, id) then NoAnswer
       else if VerifiedRow(db, o.oid).Some? then Failure(409)
       else UploadActions
  }

  /** Over a whole upload batch without faults, duplicates included, the tables
      change by the links of exactly the verified rows named at their own size
      within the limit, and their counts; nothing else. */
  lemma {:induction false} UploadBatchMeaning(cfg: Config, db: Tables, repo: string, objects: seq<BatchObject>, faults: seq<Fault>, now: int, k: nat)
    requires WellKept(db) && k <= |objects| && k <= |faults|
    requires forall i :: 0 <= i < k ==> faults[i] == NoFault
    ensures var (db', entries) := Rounds(cfg, db, repo, Upload, VerifiedRows(db, OidsOf(objects)), objects, faults, now, k);
            && db' == WithLinks(db, repo, KnownIds(cfg, db, objects, k))
            && forall i :: 0 <= i < k ==> UploadAnswered(cfg, db, objects[i], entries[i])
  {
    if k == 0 {
      NoKnownIds(db, repo);
      assert KnownIds(cfg, db, objects, 0) == {};
    } else {
      UploadBatchMeaning(cfg, db, repo, objects, faults, now, k - 1);
      UploadRound(cfg, db, repo, objects, KnownIds(cfg, db, objects, k - 1), objects[k - 1], now);
      KnownOneMore(cfg, db, objects, k);
    }
  }

  lemma NoKnownIds(db: Tables, repo: string)
    ensures WithLinks(db, repo, {}) == db
  {
    assert db.links + (set id | id in {} :: Link(repo, id)) == db.links;
  }

  ghost function KnownTo(cfg: Config, db: Tables, o: BatchObject): set<nat> {
    set id | id in db.objects && Known(cfg, db, o, id)
  }

  lemma KnownOneMore(cfg: Config, db: Tables, objects: seq<BatchObject>, k: nat)
    requires 0 < k <= |objects|
    ensures KnownIds(cfg, db, objects, k) == KnownIds(cfg, db, objects, k - 1) + KnownTo(cfg, db, objects[k - 1])
  {}

  lemma UploadRound(cfg: Config, db: Tables, repo: string, objects: seq<BatchObject>, ids: set<nat>, o: BatchObject, now: int)
    requires WellKept(db) && ids <= db.objects.Keys && o in objects
    ensures var (db', e) := Round(cfg, WithLinks(db, repo, ids), repo, Upload, VerifiedRows(db, OidsOf(objects)), o, NoFault, now);
            db' == WithLinks(db, repo, ids + KnownTo(cfg, db, o)) && UploadAnswered(cfg, db, o, e)
  {
    var found := VerifiedRows(db, OidsOf(objects));
    assert o.oid in OidsOf(objects);
    if VerifiedRow(db, o.oid).Some? {
      var id := Lookup(db, o.oid).value;
      assert RowKept(db, id);
      if Dedup(cfg, found, o) {
        LinksOneMore(db, repo, ids, o.oid, o.size, now, id);
        assert Known(cfg, db, o, id);
      }
    }
    forall id: nat | Known(cfg, db, o, id) ensures Lookup(db, o.oid) == Some(id) {
      LookupUnique(db, o.oid, id);
    }
    if Dedup(cfg, found, o) {
      assert KnownTo(cfg, db, o) == {Lookup(db, o.oid).value};
    } else {
      assert KnownTo(cfg, db, o) == {};
      assert ids + KnownTo(cfg, db, o) == ids;
    }
  }
}
