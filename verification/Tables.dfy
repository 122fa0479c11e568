/** The two database tables and the meaning of every transaction on them.
    A transaction is a function from tables to tables and a result; a failed
    one is rolled back, so it returns the tables it was given. */
module Tables {
  import opened Wrappers
  import opened Uris

  /** A row of `objects`. Times are plain integers. */
  datatype Row = Row(
    oid: Oid,
    size: Option<int>,
    uri: Option<Uri>,
    repoCount: int,
    createdAt: int,
    verifiedAt: Option<int>)

  /** A row of `repo_objects`. */
  datatype Link = Link(repo: string, objectId: nat)

  /** `objects` by primary key, `repo_objects` under its unique index, and the
      primary key sequence. */
  datatype Tables = Tables(objects: map<nat, Row>, links: set<Link>, nextId: nat)

  datatype TxError =
    | SizeConflict(stored: int, claimed: int)
    | NoUri
    | ObjectNotFound

  const EMPTY: Tables := Tables(map[], {}, 1)

  predicate Pending(row: Row) {
    row.verifiedAt.None?
  }

  // ------------------------------------------------------------ queries

  function IdsOf(db: Tables, oid: Oid): set<nat> {
    set id | id in db.objects && db.objects[id].oid == oid
  }

  /** SELECT ... WHERE oid = @oid LIMIT 1. */
  ghost function Lookup(db: Tables, oid: Oid): (r: Option<nat>)
    ensures r.None? <==> IdsOf(db, oid) == {}
    ensures r.Some? ==> r.value in db.objects && db.objects[r.value].oid == oid
  {
    var ids := IdsOf(db, oid);
    if ids == {} then None else var id :| id in ids; Some(id)
  }

  ghost function VerifiedRow(db: Tables, oid: Oid): Option<Row> {
    match Lookup(db, oid)
    case Some(id) => if Pending(db.objects[id]) then None else Some(db.objects[id])
    case None => None
  }

  /** GetRepoObjectByOID: verified, and joined to the repository. */
  ghost function LinkedRow(db: Tables, repo: string, oid: Oid): Option<Row> {
    match Lookup(db, oid)
    case Some(id) => if Link(repo, id) in db.links then VerifiedRow(db, oid) else None
    case None => None
  }

  /** GetObjectsByOIDs: the verified rows of the requested objects, by oid. */
  ghost function VerifiedRows(db: Tables, oids: set<Oid>): map<Oid, Row> {
    map oid | oid in oids && VerifiedRow(db, oid).Some? :: VerifiedRow(db, oid).value
  }

  /** GetRepoObjectsByOIDs: the same, restricted to objects linked to the repository. */
  ghost function LinkedRows(db: Tables, repo: string, oids: set<Oid>): map<Oid, Row> {
    map oid | oid in oids && LinkedRow(db, repo, oid).Some? :: LinkedRow(db, repo, oid).value
  }

  // ------------------------------------------------------------ statements

  /** INSERT INTO objects ... ON CONFLICT (oid) DO UPDATE SET ... COALESCE. */
  function Coalesced(row: Row, size: int, uri: Uri, now: int): Row {
    row.(size := Some(row.size.GetOr(size)),
         uri := Some(row.uri.GetOr(uri)),
         verifiedAt := Some(row.verifiedAt.GetOr(now)))
  }

  function Inserted(db: Tables, row: Row): Tables {
    db.(objects := db.objects[db.nextId := row], nextId := db.nextId + 1)
  }

  ghost function Upserted(db: Tables, oid: Oid, size: int, uri: Uri, now: int): (r: (Tables, nat))
    ensures r.1 in r.0.objects
  {
    match Lookup(db, oid)
    case None => (Inserted(db, Row(oid, Some(size), Some(uri), 0, now, Some(now))), db.nextId)
    case Some(id) => (db.(objects := db.objects[id := Coalesced(db.objects[id], size, uri, now)]), id)
  }

  /** UPDATE objects SET size, object_uri, verified_at WHERE oid AND verified_at IS NULL. */
  function MarkedRow(row: Row, oid: Oid, size: int, uri: Uri, now: int): Row {
    if row.oid == oid && Pending(row)
    then row.(size := Some(size), uri := Some(uri), verifiedAt := Some(now))
    else row
  }

  function Marked(db: Tables, oid: Oid, size: int, uri: Uri, now: int): Tables {
    db.(objects := map id | id in db.objects :: MarkedRow(db.objects[id], oid, size, uri, now))
  }

  function LinksOf(links: set<Link>, id: nat): set<Link> {
    set l | l in links && l.objectId == id
  }

  /** INSERT INTO repo_objects ... ON CONFLICT DO NOTHING, then the recount of
      repo_count when a row was inserted. */
  function Attached(db: Tables, repo: string, id: nat): Tables
    requires id in db.objects
  {
    if Link(repo, id) in db.links then db
    else
      var links := db.links + {Link(repo, id)};
      Tables(db.objects[id := db.objects[id].(repoCount := |LinksOf(links, id)|)], links, db.nextId)
  }

  /** The checks both transactions make on the row they read back. */
  function Accepted(row: Row, size: int): Result<Uri, TxError> {
    if row.size.GetOr(-1) != size then Err(SizeConflict(row.size.GetOr(-1), size))
    else if row.uri.GetOr("") == "" then Err(NoUri)
    else Ok(row.uri.GetOr(""))
  }

  function Deleted(db: Tables, ids: set<nat>): Tables {
    db.(objects := map id | id in db.objects && id !in ids :: db.objects[id])
  }

  // ------------------------------------------------------------ transactions

  type TxResult = (Tables, Result<Uri, TxError>)

  ghost function LinkTx(db: Tables, repo: string, oid: Oid, size: int, uri: Uri, now: int): TxResult {
    var (up, id) := Upserted(db, oid, size, uri, now);
    match Accepted(up.objects[id], size)
    case Err(e) => (db, Err(e))
    case Ok(stored) => (Attached(up, repo, id), Ok(stored))
  }

  ghost function VerifyTx(db: Tables, repo: string, oid: Oid, size: int, uri: Uri, now: int): TxResult {
    var marked := Marked(db, oid, size, uri, now);
    match Lookup(marked, oid)
    case None => (db, Err(ObjectNotFound))
    case Some(id) =>
      match Accepted(marked.objects[id], size)
      case Err(e) => (db, Err(e))
      case Ok(stored) => (Attached(marked, repo, id), Ok(stored))
  }

  ghost function PendingTx(db: Tables, oid: Oid, now: int): Tables {
    match Lookup(db, oid)
    case None => Inserted(db, Row(oid, None, None, 0, now, None))
    case Some(_) => db
  }

  // ------------------------------------------------------------ the invariant

  predicate UniqueOids(db: Tables) {
    forall i, j | i in db.objects && j in db.objects :: db.objects[i].oid == db.objects[j].oid ==> i == j
  }

  /** The CHECK constraint, and what the count of a row means. */
  predicate RowKept(db: Tables, id: nat)
    requires id in db.objects
  {
    var row := db.objects[id];
    && 1 <= id < db.nextId
    && row.repoCount == |LinksOf(db.links, id)|
    && if Pending(row) then row.size.None? && row.uri.None? && row.repoCount == 0
       else row.size.Some? && row.uri.Some? && row.uri.value != "" && row.repoCount >= 1
  }

  predicate WellKept(db: Tables) {
    && 1 <= db.nextId
    && UniqueOids(db)
    && (forall id | id in db.objects :: RowKept(db, id))
    && (forall l | l in db.links :: l.objectId in db.objects)
  }

  /** `repo` can download `oid` at `size`: a verified, linked row says so. */
  predicate Published(db: Tables, repo: string, oid: Oid, size: int, id: nat) {
    && id in db.objects
    && db.objects[id].oid == oid
    && !Pending(db.objects[id])
    && db.objects[id].size == Some(size)
    && Link(repo, id) in db.links
  }

  /** The write-once part of two versions of a row. */
  predicate SameFacts(row: Row, row': Row) {
    && row'.oid == row.oid && row'.size == row.size && row'.uri == row.uri
    && row'.verifiedAt == row.verifiedAt && row'.createdAt == row.createdAt
  }

  /** What no transaction ever undoes: verified rows stay with their oid, size,
      URI and times, links stay, counts only rise, and keys are never reused. */
  predicate Grows(db: Tables, db': Tables) {
    && db.links <= db'.links
    && db.nextId <= db'.nextId
    && (forall id | id in db.objects :: id < db.nextId)
    && (forall id | id in db'.objects :: id in db.objects || db.nextId <= id)
    && (forall id | id in db.objects && id in db'.objects :: db.objects[id].oid == db'.objects[id].oid)
    && (forall id | id in db.objects && !Pending(db.objects[id]) ::
          && id in db'.objects
          && SameFacts(db.objects[id], db'.objects[id])
          && db.objects[id].repoCount <= db'.objects[id].repoCount)
  }

  lemma GrowsTrans(a: Tables, b: Tables, c: Tables)
    requires Grows(a, b) && Grows(b, c)
    ensures Grows(a, c)
  {}

  // ------------------------------------------------------------ proofs

  lemma LookupUnique(db: Tables, oid: Oid, id: nat)
    requires UniqueOids(db) && id in db.objects && db.objects[id].oid == oid
    ensures Lookup(db, oid) == Some(id)
  {
    assert id in IdsOf(db, oid);
  }

  lemma AbsentOid(db: Tables, oid: Oid)
    requires Lookup(db, oid).None?
    ensures forall id | id in db.objects :: db.objects[id].oid != oid
  {
    forall id | id in db.objects ensures db.objects[id].oid != oid {
      assert id !in IdsOf(db, oid);
    }
  }

  lemma SubsetSize<T>(a: set<T>, b: set<T>)
    requires a <= b
    ensures |a| <= |b|
  {
    assert b == a + (b - a);
  }

  lemma LinksOfAdd(links: set<Link>, repo: string, id: nat, other: nat)
    requires Link(repo, id) !in links
    ensures |LinksOf(links + {Link(repo, id)}, other)| ==
            |LinksOf(links, other)| + if other == id then 1 else 0
  {
    var wider := LinksOf(links + {Link(repo, id)}, other);
    if other == id {
      assert wider == LinksOf(links, other) + {Link(repo, id)};
    } else {
      assert wider == LinksOf(links, other);
    }
  }

  /** Tables in which one row has been made verified (or already was) but its
      link has not been added yet: what both transactions hold between
      statements. */
  predicate AlmostKept(db: Tables, id: nat) {
    && UniqueOids(db)
    && (forall l | l in db.links :: l.objectId in db.objects)
    && (forall other | other in db.objects && other != id :: RowKept(db, other))
    && id in db.objects
    && 1 <= id < db.nextId
    && db.objects[id].repoCount == |LinksOf(db.links, id)|
    && db.objects[id].size.Some? && db.objects[id].uri.Some? && db.objects[id].uri.value != ""
    && !Pending(db.objects[id])
  }

  lemma AttachedKeeps(db: Tables, repo: string, id: nat)
    requires AlmostKept(db, id)
    ensures WellKept(Attached(db, repo, id))
    ensures Grows(db, Attached(db, repo, id))
    ensures Link(repo, id) in Attached(db, repo, id).links
  {
    var db' := Attached(db, repo, id);
    if Link(repo, id) in db.links {
      assert Link(repo, id) in LinksOf(db.links, id);
    } else {
      forall other | other in db'.objects
        ensures RowKept(db', other)
        ensures db.objects[other].repoCount <= db'.objects[other].repoCount
      {
        LinksOfAdd(db.links, repo, id, other);
      }
    }
  }

  lemma NewRowHasNoLinks(db: Tables)
    requires WellKept(db)
    ensures LinksOf(db.links, db.nextId) == {}
  {
    forall l | l in db.links ensures l.objectId != db.nextId {
      assert RowKept(db, l.objectId);
    }
  }

  lemma UpsertedKeeps(db: Tables, oid: Oid, size: int, uri: Uri, now: int)
    requires WellKept(db) && uri != ""
    ensures var (up, id) := Upserted(db, oid, size, uri, now);
            && AlmostKept(up, id) && Grows(db, up)
            && up.links == db.links && up.objects[id].oid == oid
            && (forall other | other in up.objects && other != id ::
                  other in db.objects && up.objects[other] == db.objects[other])
            && (forall other | other in db.objects :: other in up.objects)
            && (id in db.objects && !Pending(db.objects[id]) ==> up.objects[id] == db.objects[id])
            && (id !in db.objects || Pending(db.objects[id]) ==>
                  up.objects[id].size == Some(size) && up.objects[id].uri == Some(uri))
  {
    UpsertedRows(db, oid, size, uri, now);
    UpsertedRow(db, oid, size, uri, now);
    UpsertedUnique(db, oid, size, uri, now);
    UpsertedGrows(db, oid, size, uri, now);
  }

  lemma UpsertedUnique(db: Tables, oid: Oid, size: int, uri: Uri, now: int)
    requires UniqueOids(db)
    ensures UniqueOids(Upserted(db, oid, size, uri, now).0)
  {
    if Lookup(db, oid).None? { AbsentOid(db, oid); }
  }

  lemma UpsertedGrows(db: Tables, oid: Oid, size: int, uri: Uri, now: int)
    requires WellKept(db) && uri != ""
    ensures Grows(db, Upserted(db, oid, size, uri, now).0)
  {
    UpsertedRow(db, oid, size, uri, now);
    forall id | id in db.objects ensures id < db.nextId { assert RowKept(db, id); }
  }

  /** The row it leaves is verified, and the old one if that was. */
  lemma UpsertedRow(db: Tables, oid: Oid, size: int, uri: Uri, now: int)
    requires WellKept(db) && uri != ""
    ensures var (up, id) := Upserted(db, oid, size, uri, now);
            var row := up.objects[id];
            && row.size.Some? && row.uri.Some? && row.uri.value != "" && !Pending(row) && row.oid == oid
            && row.repoCount == (if id in db.objects then db.objects[id].repoCount else 0)
            && (id in db.objects && !Pending(db.objects[id]) ==> row == db.objects[id])
            && (id !in db.objects || Pending(db.objects[id]) ==> row.size == Some(size) && row.uri == Some(uri))
            && 1 <= id < up.nextId && (id !in db.objects ==> id == db.nextId && Lookup(db, oid).None?)
            && (id in db.objects ==> RowKept(db, id))
  {
    var (up, id) := Upserted(db, oid, size, uri, now);
    if id in db.objects { assert RowKept(db, id); }
  }

  /** An upsert leaves every other row as it was. */
  lemma UpsertedRows(db: Tables, oid: Oid, size: int, uri: Uri, now: int)
    requires WellKept(db)
    ensures var (up, id) := Upserted(db, oid, size, uri, now);
            && (forall other | other in up.objects && other != id :: other in db.objects && RowKept(db, other) && RowKept(up, other))
            && LinksOf(db.links, db.nextId) == {}
  {
    var (up, id) := Upserted(db, oid, size, uri, now);
    NewRowHasNoLinks(db);
    forall other | other in up.objects && other != id ensures RowKept(db, other) && RowKept(up, other) {
      assert RowKept(db, other);
    }
  }

  /** A verified row of another size is in the way. */
  ghost predicate Clash(db: Tables, oid: Oid, size: int) {
    Lookup(db, oid).Some? &&
    var row := db.objects[Lookup(db, oid).value];
    !Pending(row) && row.size != Some(size)
  }

  /** What a successful LinkObject or VerifyObject means, whatever its
      statements: one verified row for `oid`, linked to `repo`, whose URI is the
      first one it was ever given; every other row is untouched. */
  ghost predicate FirstWriterWins(db: Tables, db': Tables, repo: string, oid: Oid, size: int, offered: Uri, stored: Uri) {
    Lookup(db', oid).Some? &&
    var id := Lookup(db', oid).value;
    && Published(db', repo, oid, size, id)
    && db'.objects[id].uri == Some(stored)
    && (if Lookup(db, oid).Some? && !Pending(db.objects[Lookup(db, oid).value])
        then Lookup(db, oid) == Some(id) && SameFacts(db.objects[id], db'.objects[id])
        else stored == offered)
    && db'.links == db.links + {Link(repo, id)}
    && db'.objects.Keys == db.objects.Keys + {id}
    && (forall other | other in db.objects && other != id :: db'.objects[other] == db.objects[other])
  }

  lemma AttachedWins(db: Tables, up: Tables, repo: string, oid: Oid, size: int, offered: Uri, id: nat)
    requires WellKept(db) && AlmostKept(up, id) && Grows(db, up) && up.links == db.links
    requires up.objects[id].oid == oid && up.objects.Keys == db.objects.Keys + {id}
    requires forall other | other in db.objects && other != id :: up.objects[other] == db.objects[other]
    requires up.objects[id].size == Some(size)
    requires id in db.objects && !Pending(db.objects[id]) ==> up.objects[id] == db.objects[id]
    requires id !in db.objects || Pending(db.objects[id]) ==> up.objects[id].uri == Some(offered)
    requires id !in db.objects ==> Lookup(db, oid).None?
    ensures FirstWriterWins(db, Attached(up, repo, id), repo, oid, size, offered, up.objects[id].uri.value)
  {
    var db' := Attached(up, repo, id);
    AttachedKeeps(up, repo, id);
    LookupUnique(db', oid, id);
    if id in db.objects {
      LookupUnique(db, oid, id);
    }
  }

  lemma LinkTxFails(db: Tables, repo: string, oid: Oid, size: int, uri: Uri, now: int)
    requires WellKept(db) && uri != ""
    ensures var (up, id) := Upserted(db, oid, size, uri, now);
            var (db', r) := LinkTx(db, repo, oid, size, uri, now);
            && (r.Err? <==> Clash(db, oid, size)) && (r.Err? ==> db' == db)
            && (r.Ok? ==> db' == Attached(up, repo, id) && r.value == up.objects[id].uri.GetOr("") && up.objects[id].size == Some(size))
  {
    UpsertedRow(db, oid, size, uri, now);
  }

  /** LinkObject is rejected exactly by a verified row of another size. */
  lemma LinkTxMeaning(db: Tables, repo: string, oid: Oid, size: int, uri: Uri, now: int)
    requires WellKept(db) && uri != ""
    ensures var (db', r) := LinkTx(db, repo, oid, size, uri, now);
            && WellKept(db') && Grows(db, db')
            && (r.Err? <==> Clash(db, oid, size))
            && (r.Err? ==> db' == db)
            && (r.Ok? ==> FirstWriterWins(db, db', repo, oid, size, uri, r.value))
  {
    var (up, id) := Upserted(db, oid, size, uri, now);
    UpsertedKeeps(db, oid, size, uri, now);
    LinkTxFails(db, repo, oid, size, uri, now);
    if LinkTx(db, repo, oid, size, uri, now).1.Ok? {
      AttachedKeeps(up, repo, id);
      GrowsTrans(db, up, Attached(up, repo, id));
      AttachedWins(db, up, repo, oid, size, uri, id);
    } else {
      forall id | id in db.objects ensures id < db.nextId { assert RowKept(db, id); }
    }
  }

  lemma MarkedKeeps(db: Tables, oid: Oid, size: int, uri: Uri, now: int, id: nat)
    requires WellKept(db) && uri != ""
    requires id in db.objects && db.objects[id].oid == oid
    ensures var up := Marked(db, oid, size, uri, now);
            && AlmostKept(up, id) && Grows(db, up) && Lookup(up, oid) == Some(id)
            && up.links == db.links && up.objects.Keys == db.objects.Keys
            && (forall other | other in up.objects && other != id :: up.objects[other] == db.objects[other])
            && (!Pending(db.objects[id]) ==> up.objects[id] == db.objects[id])
            && (Pending(db.objects[id]) ==> up.objects[id].size == Some(size) && up.objects[id].uri == Some(uri))
  {
    var up := Marked(db, oid, size, uri, now);
    assert RowKept(db, id);
    forall other | other in up.objects && other != id
      ensures up.objects[other] == db.objects[other] && RowKept(up, other)
    {
      assert RowKept(db, other);
    }
    assert UniqueOids(up);
    LookupUnique(up, oid, id);
  }

  lemma MarkedAbsent(db: Tables, oid: Oid, size: int, uri: Uri, now: int)
    requires Lookup(db, oid).None?
    ensures Lookup(Marked(db, oid, size, uri, now), oid).None?
  {
    AbsentOid(db, oid);
    var up := Marked(db, oid, size, uri, now);
    assert forall id | id in up.objects :: up.objects[id].oid == db.objects[id].oid;
    assert IdsOf(up, oid) == {};
  }

  /** VerifyObject also needs a row to exist; otherwise it agrees with
      LinkObject in what it rejects and in what a success means. */
  lemma VerifyTxMeaning(db: Tables, repo: string, oid: Oid, size: int, uri: Uri, now: int)
    requires WellKept(db) && uri != ""
    ensures var (db', r) := VerifyTx(db, repo, oid, size, uri, now);
            && WellKept(db') && Grows(db, db')
            && (r.Err? <==> Lookup(db, oid).None? || Clash(db, oid, size))
            && (r.Err? ==> db' == db)
            && (r.Ok? ==> FirstWriterWins(db, db', repo, oid, size, uri, r.value)
                          && db'.objects.Keys == db.objects.Keys)
  {
    var up := Marked(db, oid, size, uri, now);
    var (db', r) := VerifyTx(db, repo, oid, size, uri, now);
    match Lookup(db, oid)
    case None =>
      MarkedAbsent(db, oid, size, uri, now);
    case Some(id) =>
      MarkedKeeps(db, oid, size, uri, now, id);
      if r.Ok? {
        AttachedKeeps(up, repo, id);
        GrowsTrans(db, up, db');
        AttachedWins(db, up, repo, oid, size, uri, id);
        assert db'.objects.Keys == db.objects.Keys;
      }
  }

  /** An empty offer: a verified object takes it like any other offer; without
      one both calls fail and change nothing. */
  lemma EmptyOffer(db: Tables, repo: string, oid: Oid, size: int, other: Uri, now: int)
    requires WellKept(db)
    ensures VerifiedRow(db, oid).Some? ==>
              && LinkTx(db, repo, oid, size, "", now) == LinkTx(db, repo, oid, size, other, now)
              && VerifyTx(db, repo, oid, size, "", now) == VerifyTx(db, repo, oid, size, other, now)
    ensures VerifiedRow(db, oid).None? ==>
              && LinkTx(db, repo, oid, size, "", now) == (db, Err(NoUri))
              && VerifyTx(db, repo, oid, size, "", now) == (db, Err(if Lookup(db, oid).None? then ObjectNotFound else NoUri))
  {
    EmptyLink(db, repo, oid, size, other, now);
    EmptyVerify(db, repo, oid, size, other, now);
  }

  lemma EmptyLink(db: Tables, repo: string, oid: Oid, size: int, other: Uri, now: int)
    requires WellKept(db)
    ensures LinkTx(db, repo, oid, size, "", now) ==
            if VerifiedRow(db, oid).Some? then LinkTx(db, repo, oid, size, other, now) else (db, Err(NoUri))
  {
    if Lookup(db, oid).Some? {
      assert RowKept(db, Lookup(db, oid).value);
    }
  }

  lemma EmptyVerify(db: Tables, repo: string, oid: Oid, size: int, other: Uri, now: int)
    requires WellKept(db)
    ensures VerifyTx(db, repo, oid, size, "", now) ==
            if VerifiedRow(db, oid).Some? then VerifyTx(db, repo, oid, size, other, now)
            else (db, Err(if Lookup(db, oid).None? then ObjectNotFound else NoUri))
  {
    if Lookup(db, oid).None? {
      MarkedAbsent(db, oid, size, "", now);
    } else {
      var id := Lookup(db, oid).value;
      assert RowKept(db, id);
      MarkedSame(db, oid, size, "", now, id);
      MarkedSame(db, oid, size, other, now, id);
    }
  }

  /** The guarded UPDATE touches the row of the oid alone, and only if pending. */
  lemma MarkedSame(db: Tables, oid: Oid, size: int, uri: Uri, now: int, id: nat)
    requires UniqueOids(db) && id in db.objects && db.objects[id].oid == oid
    ensures var up := Marked(db, oid, size, uri, now);
            && Lookup(up, oid) == Some(id)
            && up == db.(objects := db.objects[id := MarkedRow(db.objects[id], oid, size, uri, now)])
  {
    var up := Marked(db, oid, size, uri, now);
    assert forall other | other in up.objects :: up.objects[other].oid == db.objects[other].oid;
    LookupUnique(up, oid, id);
  }

  lemma PendingTxKeeps(db: Tables, oid: Oid, now: int)
    requires WellKept(db)
    ensures WellKept(PendingTx(db, oid, now)) && Grows(db, PendingTx(db, oid, now))
    ensures var db' := PendingTx(db, oid, now);
            && Lookup(db', oid).Some? && db'.links == db.links
            && (forall id | id in db.objects :: id in db'.objects && db'.objects[id] == db.objects[id])
            && (Lookup(db, oid).Some? ==> db' == db)
            && (Lookup(db, oid).None? ==>
                  var id := Lookup(db', oid).value;
                  id !in db.objects && Pending(db'.objects[id]) && db'.objects[id].createdAt == now && LinksOf(db'.links, id) == {})
  {
    var db' := PendingTx(db, oid, now);
    if Lookup(db, oid).None? {
      NewRowHasNoLinks(db);
      AbsentOid(db, oid);
      forall other | other in db'.objects ensures RowKept(db', other) {
        if other in db.objects { assert RowKept(db, other); }
      }
      assert db.nextId in IdsOf(db', oid);
      LookupUnique(db', oid, db.nextId);
    }
  }

  /** Deleting rows without links keeps the tables; when they are all pending,
      nothing verified is lost. */
  lemma DeletedKeeps(db: Tables, ids: set<nat>)
    requires WellKept(db)
    requires forall id | id in ids :: id in db.objects && Pending(db.objects[id])
    ensures WellKept(Deleted(db, ids)) && Grows(db, Deleted(db, ids))
    ensures forall id | id in ids :: Lookup(Deleted(db, ids), db.objects[id].oid).None?
  {
    var db' := Deleted(db, ids);
    forall id | id in db'.objects ensures RowKept(db', id) {
      assert RowKept(db, id);
    }
    forall l | l in db'.links ensures l.objectId in db'.objects {
      assert RowKept(db, l.objectId);
      assert l in LinksOf(db.links, l.objectId);
    }
    forall id | id in ids ensures IdsOf(db', db.objects[id].oid) == {} {}
  }
}
