/** The database calls of the server, statement by statement. Each transaction
    either commits what the table functions say or is rolled back. */
module Database {
  import opened Wrappers
  import opened Uris
  import opened Tables
  import opened Sweeps

  /** A scanned row: the columns and the primary key. */
  datatype Record = Record(id: nat, row: Row)

  /** What a query returned, in order. */
  function Records(objects: map<nat, Row>, ids: seq<nat>): (r: seq<Record>)
    requires forall id | id in ids :: id in objects
    ensures |r| == |ids|
  {
    seq(|ids|, i requires 0 <= i < |ids| => Record(ids[i], objects[ids[i]]))
  }

  /** SELECT ... WHERE oid = ANY(@oids) AND verified_at IS NOT NULL, in any order. */
  ghost predicate SelectsVerified(db: Tables, oids: set<Oid>, ids: seq<nat>) {
    Distinct(ids) && forall id :: id in ids <==> id in db.objects && db.objects[id].oid in oids && !Pending(db.objects[id])
  }

  /** The same, joined to the links of one repository. */
  ghost predicate SelectsLinked(db: Tables, repo: string, oids: set<Oid>, ids: seq<nat>) {
    Distinct(ids) && forall id :: id in ids <==>
      id in db.objects && db.objects[id].oid in oids && !Pending(db.objects[id]) && Link(repo, id) in db.links
  }

  /** How a transaction ends: with its own result, or rolled back because one
      of its statements failed. */
  datatype Outcome = Done(result: Result<Uri, TxError>) | RolledBack

  class Database {
    var objects: map<nat, Row>
    var links: set<Link>
    var nextId: nat

    constructor ()
      ensures Snapshot() == EMPTY
    {
      objects, links, nextId := map[], {}, 1;
    }

    function Snapshot(): Tables
      reads this
    {
      Tables(objects, links, nextId)
    }

    /** The unique index on oid. */
    method FindByOid(oid: Oid) returns (r: Option<nat>)
      requires UniqueOids(Snapshot())
      ensures r == Lookup(Snapshot(), oid)
    {
      if id :| id in objects && objects[id].oid == oid {
        LookupUnique(Snapshot(), oid, id);
        r := Some(id);
      } else {
        assert IdsOf(Snapshot(), oid) == {};
        r := None;
      }
    }

    /** INSERT ... ON CONFLICT (oid) DO UPDATE ... RETURNING *. */
    method UpsertObject(oid: Oid, size: int, uri: Uri, now: int) returns (r: Record)
      requires UniqueOids(Snapshot())
      modifies this
      ensures (Snapshot(), r.id) == Upserted(old(Snapshot()), oid, size, uri, now)
      ensures r.id in objects && r.row == objects[r.id]
    {
      var found := FindByOid(oid);
      match found {
        case None =>
          r := Record(nextId, Row(oid, Some(size), Some(uri), 0, now, Some(now)));
          nextId := nextId + 1;
        case Some(id) =>
          var row := objects[id];
          if row.size.None? { row := row.(size := Some(size)); }
          if row.uri.None? { row := row.(uri := Some(uri)); }
          if row.verifiedAt.None? { row := row.(verifiedAt := Some(now)); }
          r := Record(id, row);
      }
      objects := objects[r.id := r.row];
    }

    /** INSERT INTO repo_objects ... ON CONFLICT DO NOTHING. */
    method InsertLink(repo: string, id: nat) returns (rowsAffected: nat)
      modifies this`links
      ensures links == old(links) + {Link(repo, id)}
      ensures rowsAffected == if Link(repo, id) in old(links) then 0 else 1
    {
      if Link(repo, id) in links {
        rowsAffected := 0;
        assert links == links + {Link(repo, id)};
      } else {
        links := links + {Link(repo, id)};
        rowsAffected := 1;
      }
    }

    /** UPDATE objects SET repo_count = (SELECT COUNT(*) ...). */
    method UpdateRepoCount(id: nat)
      requires id in objects
      modifies this`objects
      ensures objects == old(objects)[id := old(objects)[id].(repoCount := |LinksOf(links, id)|)]
    {
      var count := |set l | l in links && l.objectId == id|;
      objects := objects[id := objects[id].(repoCount := count)];
    }

    /** The second half of both transactions: check the row that was read back,
        link it, and recount. `failing` is the statement the server rejects, 0
        for none. */
    method LinkRow(repo: string, size: int, scanned: Record, failing: nat) returns (r: Outcome)
      requires scanned.id in objects && objects[scanned.id] == scanned.row
      modifies this
      ensures r.RolledBack? ==> failing > 0
      ensures r.Done? ==> r.result == Accepted(scanned.row, size)
      ensures r.Done? && r.result.Ok? ==> Snapshot() == Attached(old(Snapshot()), repo, scanned.id)
    {
      if scanned.row.size.GetOr(-1) != size {
        return Done(Err(SizeConflict(scanned.row.size.GetOr(-1), size)));
      }
      var storedUri := scanned.row.uri.GetOr("");
      if storedUri == "" {
        return Done(Err(NoUri));
      }
      if failing == 2 {
        return RolledBack;
      }
      var rowsAffected := InsertLink(repo, scanned.id);
      if rowsAffected > 0 {
        if failing == 3 {
          return RolledBack;
        }
        UpdateRepoCount(scanned.id);
      }
      r := Done(Ok(storedUri));
    }

    /** LinkObject. */
    method LinkObject(repo: string, oid: Oid, size: int, uri: Uri, now: int, failing: nat) returns (r: Outcome)
      requires UniqueOids(Snapshot())
      modifies this
      ensures r.Done? ==> (Snapshot(), r.result) == LinkTx(old(Snapshot()), repo, oid, size, uri, now)
      ensures r.RolledBack? ==> Snapshot() == old(Snapshot()) && failing > 0
    {
      var savedObjects, savedLinks, savedNextId := objects, links, nextId;
      r := RolledBack;
      if failing != 1 {
        var scanned := UpsertObject(oid, size, uri, now);
        r := LinkRow(repo, size, scanned, failing);
      }
      if r.RolledBack? || r.result.Err? {
        objects, links, nextId := savedObjects, savedLinks, savedNextId;
      }
    }

    /** UPDATE objects SET ... WHERE oid = @oid AND verified_at IS NULL. */
    method MarkPending(oid: Oid, size: int, uri: Uri, now: int)
      requires UniqueOids(Snapshot())
      modifies this`objects
      ensures Snapshot() == Marked(old(Snapshot()), oid, size, uri, now)
    {
      if id :| id in objects && objects[id].oid == oid && objects[id].verifiedAt.None? {
        objects := objects[id := objects[id].(size := Some(size), uri := Some(uri), verifiedAt := Some(now))];
      }
    }

    /** VerifyObject. */
    method VerifyObject(repo: string, oid: Oid, size: int, uri: Uri, now: int, failing: nat) returns (r: Outcome)
      requires UniqueOids(Snapshot())
      modifies this
      ensures r.Done? ==> (Snapshot(), r.result) == VerifyTx(old(Snapshot()), repo, oid, size, uri, now)
      ensures r.RolledBack? ==> Snapshot() == old(Snapshot()) && failing > 0
    {
      var savedObjects, savedLinks, savedNextId := objects, links, nextId;
      r := RolledBack;
      if failing != 1 {
        MarkPending(oid, size, uri, now);
        var found := FindByOid(oid);
        match found {
          case None => r := Done(Err(ObjectNotFound));
          case Some(id) => r := LinkRow(repo, size, Record(id, objects[id]), failing);
        }
      }
      if r.RolledBack? || r.result.Err? {
        objects, links, nextId := savedObjects, savedLinks, savedNextId;
      }
    }

    /** INSERT ... ON CONFLICT (oid) DO NOTHING. */
    method InsertPendingObject(oid: Oid, now: int)
      requires UniqueOids(Snapshot())
      modifies this
      ensures Snapshot() == PendingTx(old(Snapshot()), oid, now)
    {
      var found := FindByOid(oid);
      if found.None? {
        objects := objects[nextId := Row(oid, None, None, 0, now, None)];
        nextId := nextId + 1;
      }
    }

    /** GetObjectByOID. */
    method GetObjectByOid(oid: Oid) returns (r: Result<Row, TxError>)
      requires UniqueOids(Snapshot())
      ensures r == match Lookup(Snapshot(), oid) case Some(id) => Ok(objects[id]) case None => Err(ObjectNotFound)
    {
      var found := FindByOid(oid);
      r := if found.Some? then Ok(objects[found.value]) else Err(ObjectNotFound);
    }

    /** GetRepoObjectByOID. */
    method GetRepoObjectByOid(repo: string, oid: Oid) returns (r: Result<Row, TxError>)
      requires UniqueOids(Snapshot())
      ensures r == match LinkedRow(Snapshot(), repo, oid) case Some(row) => Ok(row) case None => Err(ObjectNotFound)
    {
      if id :| id in objects && objects[id].oid == oid && objects[id].verifiedAt.Some? && Link(repo, id) in links {
        LookupUnique(Snapshot(), oid, id);
        r := Ok(objects[id]);
      } else {
        r := Err(ObjectNotFound);
      }
    }

    /** GetObjectsByOIDs; `selected` is the answer of its query. */
    method GetObjectsByOids(oids: seq<Oid>, selected: seq<nat>) returns (out: map<Oid, Row>)
      requires UniqueOids(Snapshot()) && SelectsVerified(Snapshot(), ToSet(oids), selected)
      ensures out == VerifiedRows(Snapshot(), ToSet(oids))
    {
      if |oids| == 0 {
        return map[];
      }
      out := CollectByOid(Records(objects, selected));
      CollectedRows(objects, selected, out);
      forall oid | oid in ToSet(oids)
        ensures oid in out <==> VerifiedRow(Snapshot(), oid).Some?
        ensures oid in out ==> out[oid] == VerifiedRow(Snapshot(), oid).value
      {
        VerifiedIsSelected(Snapshot(), oids, selected, oid);
      }
    }

    /** GetRepoObjectsByOIDs. */
    method GetRepoObjectsByOids(repo: string, oids: seq<Oid>, selected: seq<nat>) returns (out: map<Oid, Row>)
      requires UniqueOids(Snapshot()) && SelectsLinked(Snapshot(), repo, ToSet(oids), selected)
      ensures out == LinkedRows(Snapshot(), repo, ToSet(oids))
    {
      if |oids| == 0 {
        return map[];
      }
      out := CollectByOid(Records(objects, selected));
      CollectedRows(objects, selected, out);
      forall oid | oid in ToSet(oids)
        ensures oid in out <==> LinkedRow(Snapshot(), repo, oid).Some?
        ensures oid in out ==> out[oid] == LinkedRow(Snapshot(), repo, oid).value
      {
        LinkedIsSelected(Snapshot(), repo, oids, selected, oid);
      }
    }

    /** The transaction of both sweeps after their SELECT: `selected` is what it
        returned and locked. */
    method DeleteSelected(selected: seq<nat>, failing: nat) returns (deleted: seq<Record>)
      requires forall id | id in selected :: id in objects
      modifies this
      ensures failing == 0 ==> Snapshot() == Deleted(old(Snapshot()), ToSet(selected)) && deleted == Records(old(objects), selected)
      ensures failing > 0 ==> Snapshot() == old(Snapshot()) && deleted == []
    {
      if failing == 1 {
        return [];
      }
      var rows := Records(objects, selected);
      if |rows| == 0 {
        assert Deleted(Snapshot(), {}) == Snapshot();
        return [];
      }
      var ids := new nat[|rows|];
      for i := 0 to |rows|
        modifies ids
        invariant ids[..i] == selected[..i]
      {
        ids[i] := rows[i].id;
      }
      assert ids[..] == selected;
      if failing > 0 {
        return [];
      }
      objects := map id | id in objects && id !in ids[..] :: objects[id];
      assert forall id :: id in selected <==> id in ToSet(selected);
      deleted := rows;
    }

    /** SweepOrphanObjects. */
    method SweepOrphanObjects(age: int, limit: int, now: int, selected: seq<nat>, locked: set<nat>, failing: nat) returns (deleted: seq<Record>)
      requires OrphanBatch(Snapshot(), selected, now - age, limit, locked)
      modifies this
      ensures forall id | id in selected :: id in old(objects)
      ensures failing == 0 ==> Snapshot() == Deleted(old(Snapshot()), ToSet(selected)) && deleted == Records(old(objects), selected)
      ensures failing > 0 ==> Snapshot() == old(Snapshot()) && deleted == []
    {
      AnswersExist(selected, Orphans(Snapshot(), now - age) - locked);
      if limit <= 0 {
        assert Deleted(Snapshot(), {}) == Snapshot();
        return [];
      }
      deleted := DeleteSelected(selected, failing);
    }

    /** SweepUnreferencedObjects. */
    method SweepUnreferencedObjects(limit: int, selected: seq<nat>, locked: set<nat>, failing: nat) returns (deleted: seq<Record>)
      requires UnreferencedBatch(Snapshot(), selected, limit, locked)
      modifies this
      ensures forall id | id in selected :: id in old(objects)
      ensures failing == 0 ==> Snapshot() == Deleted(old(Snapshot()), ToSet(selected)) && deleted == Records(old(objects), selected)
      ensures failing > 0 ==> Snapshot() == old(Snapshot()) && deleted == []
    {
      AnswersExist(selected, Unreferenced(Snapshot()) - locked);
      if limit <= 0 {
        assert Deleted(Snapshot(), {}) == Snapshot();
        return [];
      }
      deleted := DeleteSelected(selected, failing);
    }
  }

  lemma AnswersExist(ids: seq<nat>, pool: set<nat>)
    requires ToSet(ids) <= pool
    ensures forall id | id in ids :: id in pool
  {
    forall id | id in ids ensures id in pool { assert id in ToSet(ids); }
  }

  lemma VerifiedIsSelected(db: Tables, oids: seq<Oid>, ids: seq<nat>, oid: Oid)
    requires UniqueOids(db) && SelectsVerified(db, ToSet(oids), ids) && oid in oids
    ensures VerifiedRow(db, oid).Some? <==> exists id :: id in ids && db.objects[id].oid == oid
    ensures forall id | id in ids && db.objects[id].oid == oid :: VerifiedRow(db, oid) == Some(db.objects[id])
  {
    forall id | id in ids && db.objects[id].oid == oid ensures VerifiedRow(db, oid) == Some(db.objects[id]) {
      LookupUnique(db, oid, id);
    }
    if VerifiedRow(db, oid).Some? {
      assert Lookup(db, oid).value in ids;
    }
  }

  lemma LinkedIsSelected(db: Tables, repo: string, oids: seq<Oid>, ids: seq<nat>, oid: Oid)
    requires UniqueOids(db) && SelectsLinked(db, repo, ToSet(oids), ids) && oid in oids
    ensures LinkedRow(db, repo, oid).Some? <==> exists id :: id in ids && db.objects[id].oid == oid
    ensures forall id | id in ids && db.objects[id].oid == oid :: LinkedRow(db, repo, oid) == Some(db.objects[id])
  {
    forall id | id in ids && db.objects[id].oid == oid ensures LinkedRow(db, repo, oid) == Some(db.objects[id]) {
      LookupUnique(db, oid, id);
    }
    if LinkedRow(db, repo, oid).Some? {
      assert Lookup(db, oid).value in ids;
    }
  }

  /** Among the first n rows, row i is the last of its oid, and `out` has it. */
  predicate HoldsLast(rows: seq<Record>, n: nat, out: map<Oid, Row>, oid: Oid, i: int)
    requires n <= |rows|
  {
    && 0 <= i < n && rows[i].row.oid == oid && oid in out && out[oid] == rows[i].row
    && forall j :: i < j < n ==> rows[j].row.oid != oid
  }

  /** A map holding, for each oid, the last of the first n rows scanned for it. */
  ghost predicate Collected(rows: seq<Record>, n: nat, out: map<Oid, Row>)
    requires n <= |rows|
  {
    && (forall i | 0 <= i < n :: rows[i].row.oid in out)
    && (forall oid | oid in out :: exists i :: HoldsLast(rows, n, out, oid, i))
  }

  lemma CollectsOneMore(rows: seq<Record>, n: nat, out: map<Oid, Row>)
    requires n < |rows| && Collected(rows, n, out)
    ensures Collected(rows, n + 1, out[rows[n].row.oid := rows[n].row])
  {
    var out', m := out[rows[n].row.oid := rows[n].row], n + 1;
    forall oid | oid in out' ensures exists i :: HoldsLast(rows, m, out', oid, i) {
      if oid == rows[n].row.oid {
        assert HoldsLast(rows, m, out', oid, n);
      } else {
        var i :| HoldsLast(rows, n, out, oid, i);
        assert HoldsLast(rows, m, out', oid, i);
      }
    }
  }

  /** With unique oids that is the row itself. */
  lemma CollectedRows(objects: map<nat, Row>, ids: seq<nat>, out: map<Oid, Row>)
    requires forall id | id in ids :: id in objects
    requires Collected(Records(objects, ids), |ids|, out)
    requires forall i, j | i in objects && j in objects :: objects[i].oid == objects[j].oid ==> i == j
    ensures forall id | id in ids :: objects[id].oid in out && out[objects[id].oid] == objects[id]
    ensures forall oid | oid in out :: exists id :: id in ids && objects[id].oid == oid
  {
    var rows := Records(objects, ids);
    forall id | id in ids ensures objects[id].oid in out && out[objects[id].oid] == objects[id] {
      var k :| 0 <= k < |ids| && ids[k] == id;
      assert rows[k].row.oid in out;
      var i :| HoldsLast(rows, |ids|, out, objects[id].oid, i);
      assert ids[i] in ids;
    }
    forall oid | oid in out ensures exists id :: id in ids && objects[id].oid == oid {
      var i :| HoldsLast(rows, |ids|, out, oid, i);
      assert ids[i] in ids;
    }
  }

  /** The loop of both lookups. */
  method CollectByOid(rows: seq<Record>) returns (out: map<Oid, Row>)
    ensures Collected(rows, |rows|, out)
  {
    out := map[];
    for k := 0 to |rows|
      invariant Collected(rows, k, out)
    {
      CollectsOneMore(rows, k, out);
      out := out[rows[k].row.oid := rows[k].row];
    }
  }
}
