/** The janitor: one backend per scheme, and the loops that delete what a sweep
    took from the tables, for any pattern of delete failures. */
module Janitor {
  import opened Wrappers
  import opened Strings
  import opened Uris
  import opened Streams
  import opened Tables
  import opened Sweeps
  import opened Lifecycle
  import opened Database

  /** What happens to the deletes of one pass: the backend call for this object
      and URI fails. */
  type Failures = (int, Uri) -> bool

  // ------------------------------------------------------------ one backend per scheme

  /** Backend i is the first of its scheme. */
  predicate LeadsScheme(backends: seq<Backend>, i: int) {
    0 <= i < |backends| && forall j :: 0 <= j < i ==> backends[j].scheme != backends[i].scheme
  }

  /** `uniq` has the first backend of every scheme among the first k, and no other. */
  ghost predicate FirstPerScheme(backends: seq<Backend>, k: nat, uniq: seq<Backend>)
    requires k <= |backends|
  {
    && DistinctSchemes(uniq)
    && (forall i | 0 <= i < k && LeadsScheme(backends, i) :: backends[i] in uniq)
    && (forall b | b in uniq :: exists i :: 0 <= i < k && LeadsScheme(backends, i) && backends[i] == b)
  }

  /** New. `storages` lists the values of its map in iteration order. */
  method New(storages: seq<Backend>) returns (uniq: seq<Backend>)
    ensures FirstPerScheme(storages, |storages|, uniq)
  {
    var seen: set<string> := {};
    uniq := [];
    for k := 0 to |storages|
      invariant forall scheme :: scheme in seen <==> exists i :: 0 <= i < k && storages[i].scheme == scheme
      invariant FirstPerScheme(storages, k, uniq)
    {
      var b := storages[k];
      TakesOneMore(storages, k, uniq);
      if b.scheme !in seen {
        seen := seen + {b.scheme};
        uniq := uniq + [b];
      }
    }
  }

  lemma TakesOneMore(storages: seq<Backend>, k: nat, uniq: seq<Backend>)
    requires k < |storages| && FirstPerScheme(storages, k, uniq)
    ensures FirstPerScheme(storages, k + 1, if LeadsScheme(storages, k) then uniq + [storages[k]] else uniq)
  {
    if LeadsScheme(storages, k) {
      forall i | 0 <= i < |uniq| ensures uniq[i].scheme != storages[k].scheme {
        assert uniq[i] in uniq;
      }
    }
  }

  /** Every URI a configured backend builds is routed to that backend exactly if
      it leads its scheme in the iteration order of the map: with a shared scheme
      some backend is never reached. */
  lemma KeptIsReachedIff(storages: seq<Backend>, uniq: seq<Backend>, b: Backend, oid: Oid)
    requires FirstPerScheme(storages, |storages|, uniq) && ValidOid(oid)
    requires forall c | c in storages :: CleanScheme(c.scheme)
    ensures Route(uniq, UriOf(b, oid)) == Some(b) <==> exists i :: LeadsScheme(storages, i) && storages[i] == b
  {
    forall i | 0 <= i < |uniq| ensures CleanScheme(uniq[i].scheme) {
      assert uniq[i] in uniq;
    }
    if b in uniq {
      RouteReachesOwner(uniq, b, oid);
    }
  }

  lemma KeptIff(storages: seq<Backend>, uniq: seq<Backend>, b: Backend)
    requires FirstPerScheme(storages, |storages|, uniq)
    ensures b in uniq <==> exists i :: LeadsScheme(storages, i) && storages[i] == b
  {}

  /** The same of the presign loop, through which pending objects are swept: an
      object's cell in a bucket is among those it deletes exactly if the bucket
      leads its scheme; so an orphan in another bucket stays for ever. */
  lemma KeptIsSweptIff(storages: seq<Backend>, uniq: seq<Backend>, b: Backend, oid: Oid)
    requires FirstPerScheme(storages, |storages|, uniq) && b.Bucket? && ValidOid(oid)
    requires WellFormed(b) && forall c | c in storages :: WellFormed(c)
    ensures UriOf(b, oid) in PresignTargets(uniq, oid) <==> b in uniq
    ensures b in uniq <==> exists i :: LeadsScheme(storages, i) && storages[i] == b
  {
    KeptIff(storages, uniq, b);
    KeyRoundTrip(b.scheme, b.bucket, oid);
    if UriOf(b, oid) in PresignTargets(uniq, oid) {
      var c :| c in uniq && c.Bucket? && UriOf(b, oid) == UriOf(c, oid);
      OneBucketOwnsCell(b, c, oid);
    }
  }

  lemma OneBucketOwnsCell(b: Backend, c: Backend, oid: Oid)
    requires b.Bucket? && c.Bucket? && WellFormed(b) && WellFormed(c) && UriOf(b, oid) == UriOf(c, oid)
    ensures b == c
  {
    var u, v := UriOf(b, oid), UriOf(c, oid);
    assert HasPrefix(u, b.scheme) && HasPrefix(v, c.scheme);
    OneSchemeOwnsUri(b.scheme, c.scheme, u);
    assert u[|b.scheme|..] == b.bucket + ['/'] + oid && v[|c.scheme|..] == c.bucket + ['/'] + oid;
    CutAtFirst(b.bucket, '/', oid);
    CutAtFirst(c.bucket, '/', oid);
  }

  // ------------------------------------------------------------ one swept object

  /** The union of the first k of a family of sets. */
  function UnionTo(f: int -> set<Uri>, k: nat): set<Uri> {
    if k == 0 then {} else UnionTo(f, k - 1) + f(k - 1)
  }

  lemma {:induction false} InUnion(f: int -> set<Uri>, k: nat, u: Uri)
    ensures u in UnionTo(f, k) <==> exists j :: 0 <= j < k && u in f(j)
  {
    if k > 0 {
      InUnion(f, k - 1, u);
    }
  }

  /** The presign object of `oid` in each backend, when its delete succeeds. */
  function PresignCells(backends: seq<Backend>, oid: Oid, i: int, fails: Failures): int -> set<Uri> {
    (j: int) =>
      if 0 <= j < |backends| && backends[j].Bucket? && Deletable(backends[j], oid, i, fails) then {UriOf(backends[j], oid)} else {}
  }

  /** The presign URIs of an object in the first k backends whose delete
      succeeds, and whether one of those deletes failed. */
  function PresignRemovals(backends: seq<Backend>, oid: Oid, i: int, fails: Failures, k: nat): set<Uri> {
    UnionTo(PresignCells(backends, oid, i, fails), k)
  }

  predicate PresignFailed(backends: seq<Backend>, oid: Oid, i: int, fails: Failures, k: nat)
    requires k <= |backends|
  {
    k > 0 && (PresignFailed(backends, oid, i, fails, k - 1) || (backends[k - 1].Bucket? && !Deletable(backends[k - 1], oid, i, fails)))
  }

  predicate Deletable(b: Backend, oid: Oid, i: int, fails: Failures)
    requires b.Bucket?
  {
    Resolves(b, UriOf(b, oid)) && !fails(i, UriOf(b, oid))
  }

  /** deleteByURI succeeds. */
  predicate Routed(backends: seq<Backend>, uri: Uri, i: int, fails: Failures) {
    Route(backends, uri).Some? && Resolves(Route(backends, uri).value, uri) && !fails(i, uri)
  }

  /** The cells that disappear for the i-th object, and whether it is counted as
      failed. */
  function Removals(backends: seq<Backend>, row: Row, i: int, fails: Failures): set<Uri> {
    var uri := row.uri.GetOr("");
    if uri == "" then PresignRemovals(backends, row.oid, i, fails, |backends|)
    else if Routed(backends, uri, i, fails) then {uri}
    else {}
  }

  predicate Failed(backends: seq<Backend>, row: Row, i: int, fails: Failures) {
    var uri := row.uri.GetOr("");
    if uri == "" then PresignFailed(backends, row.oid, i, fails, |backends|) else !Routed(backends, uri, i, fails)
  }

  function RemovalsOf(backends: seq<Backend>, objects: seq<Row>, fails: Failures): int -> set<Uri> {
    (i: int) => if 0 <= i < |objects| then Removals(backends, objects[i], i, fails) else {}
  }

  function AllRemovals(backends: seq<Backend>, objects: seq<Row>, fails: Failures, k: nat): set<Uri> {
    UnionTo(RemovalsOf(backends, objects, fails), k)
  }

  function FailedCount(backends: seq<Backend>, objects: seq<Row>, fails: Failures, k: nat): nat
    requires k <= |objects|
  {
    if k == 0 then 0 else FailedCount(backends, objects, fails, k - 1) + if Failed(backends, objects[k - 1], k - 1, fails) then 1 else 0
  }

  function Without(store: map<Uri, Bytes>, uris: set<Uri>): map<Uri, Bytes> {
    map u | u in store && u !in uris :: store[u]
  }

  lemma WithoutMore(store: map<Uri, Bytes>, a: set<Uri>, b: set<Uri>)
    ensures Without(Without(store, a), b) == Without(store, a + b)
    ensures forall u :: Removed(Without(store, a), u) == Without(store, a + {u})
    ensures Without(store, {}) == store
  {}

  /** What a SELECT ... FOR UPDATE SKIP LOCKED returned. */
  datatype Selection = Selection(ids: seq<nat>, locked: set<nat>, failing: nat)

  function AfterSweep(db: Tables, swept: Selection): Tables {
    if swept.failing > 0 then db else Deleted(db, ToSet(swept.ids))
  }

  function RowsOf(objects: map<nat, Row>, ids: seq<nat>): seq<Row>
    requires forall id | id in ids :: id in objects
  {
    seq(|ids|, i requires 0 <= i < |ids| => objects[ids[i]])
  }

  // ------------------------------------------------------------ the deleting loops

  class Janitor {
    const storages: seq<Backend>
    var store: map<Uri, Bytes>

    constructor (storages: seq<Backend>, store: map<Uri, Bytes>)
      ensures this.storages == storages && this.store == store
    {
      this.storages := storages;
      this.store := store;
    }

    /** Backend.Delete: a URI that is not its own is refused; deleting what is
        not there is a success. */
    method Delete(b: Backend, uri: Uri, fails: bool) returns (ok: bool)
      modifies this`store
      ensures ok <==> Resolves(b, uri) && !fails
      ensures store == if ok then Removed(old(store), uri) else old(store)
    {
      ok := Resolves(b, uri) && !fails;
      if ok {
        store := store - {uri};
      }
    }

    method DeleteByUri(uri: Uri, i: int, fails: Failures) returns (ok: bool)
      modifies this`store
      ensures ok <==> Routed(storages, uri, i, fails)
      ensures store == if ok then Removed(old(store), uri) else old(store)
    {
      for k := 0 to |storages|
        invariant Route(storages, uri) == Route(storages[k..], uri)
        invariant store == old(store)
      {
        if HasPrefix(uri, storages[k].scheme) {
          ok := Delete(storages[k], uri, fails(i, uri));
          return;
        }
      }
      ok := false;
    }

    /** The presign objects of one pending row, in every bucket. */
    method DeletePresigned(oid: Oid, i: int, fails: Failures) returns (failed: bool)
      modifies this`store
      ensures failed <==> PresignFailed(storages, oid, i, fails, |storages|)
      ensures store == Without(old(store), PresignRemovals(storages, oid, i, fails, |storages|))
    {
      failed := false;
      WithoutMore(store, {}, {});
      for k := 0 to |storages|
        invariant failed <==> PresignFailed(storages, oid, i, fails, k)
        invariant store == Without(old(store), PresignRemovals(storages, oid, i, fails, k))
      {
        var b := storages[k];
        WithoutMore(old(store), PresignRemovals(storages, oid, i, fails, k), {});
        if b.Bucket? {
          var presignUri := UriOf(b, oid);
          var ok := Delete(b, presignUri, fails(i, presignUri));
          if !ok {
            failed := true;
          }
        }
      }
    }

    /** deleteObjects. */
    method DeleteObjects(objects: seq<Row>, fails: Failures) returns (deletedCount: nat, failedCount: nat)
      modifies this`store
      ensures deletedCount + failedCount == |objects|
      ensures failedCount == FailedCount(storages, objects, fails, |objects|)
      ensures store == Without(old(store), AllRemovals(storages, objects, fails, |objects|))
    {
      deletedCount, failedCount := 0, 0;
      WithoutMore(store, {}, {});
      for k := 0 to |objects|
        invariant deletedCount + failedCount == k
        invariant failedCount == FailedCount(storages, objects, fails, k)
        invariant store == Without(old(store), AllRemovals(storages, objects, fails, k))
      {
        var o := objects[k];
        var uri := o.uri.GetOr("");
        WithoutMore(old(store), AllRemovals(storages, objects, fails, k), Removals(storages, o, k, fails));
        WithoutMore(store, {}, {});
        if uri != "" {
          var ok := DeleteByUri(uri, k, fails);
          if !ok {
            failedCount := failedCount + 1;
          } else {
            deletedCount := deletedCount + 1;
          }
          continue;
        }
        var failed := DeletePresigned(o.oid, k, fails);
        if failed {
          failedCount := failedCount + 1;
        } else {
          deletedCount := deletedCount + 1;
        }
      }
    }

    /** The first pass. */
    method SweepOrphans(db: Database, now: int, orphans: Selection, fails: Failures)
      requires forall id | id in orphans.ids :: id in db.objects
      requires OrphanBatch(db.Snapshot(), orphans.ids, now - ORPHAN_AGE, SWEEP_BATCH_SIZE, orphans.locked)
      modifies db, this`store
      ensures db.Snapshot() == AfterSweep(old(db.Snapshot()), orphans)
      ensures store == if orphans.failing > 0 then old(store)
                       else Without(old(store), AllRemovals(storages, RowsOf(old(db.objects), orphans.ids), fails, |orphans.ids|))
    {
      ghost var rows := RowsOf(db.objects, orphans.ids);
      var deleted := db.SweepOrphanObjects(ORPHAN_AGE, SWEEP_BATCH_SIZE, now, orphans.ids, orphans.locked, orphans.failing);
      if |deleted| > 0 {
        var objects := seq(|deleted|, i requires 0 <= i < |deleted| => deleted[i].row);
        assert objects == rows;
        var _, _ := DeleteObjects(objects, fails);
      } else {
        WithoutMore(store, {}, {});
      }
    }

    /** The second pass, from any tables. */
    method SweepUnreferenced(db: Database, unreferenced: Selection, fails: Failures)
      requires forall id | id in unreferenced.ids :: id in db.objects
      requires UnreferencedBatch(db.Snapshot(), unreferenced.ids, SWEEP_BATCH_SIZE, unreferenced.locked)
      modifies db, this`store
      ensures db.Snapshot() == AfterSweep(old(db.Snapshot()), unreferenced)
      ensures store == if unreferenced.failing > 0 then old(store)
                       else Without(old(store), AllRemovals(storages, RowsOf(old(db.objects), unreferenced.ids), fails, |unreferenced.ids|))
    {
      ghost var rows := RowsOf(db.objects, unreferenced.ids);
      var deleted := db.SweepUnreferencedObjects(SWEEP_BATCH_SIZE, unreferenced.ids, unreferenced.locked, unreferenced.failing);
      if |deleted| > 0 {
        var objects := seq(|deleted|, i requires 0 <= i < |deleted| => deleted[i].row);
        assert objects == rows;
        var _, _ := DeleteObjects(objects, fails);
      } else {
        WithoutMore(store, {}, {});
      }
    }

    /** Sweep: both passes once. Each selection comes with what others had locked
        and the statement that fails, 0 for none. While every count is exact the
        second pass has nothing to do. */
    method Sweep(db: Database, now: int, orphans: Selection, unreferenced: Selection, fails: Failures)
      requires WellKept(db.Snapshot()) && forall id | id in orphans.ids :: id in db.objects
      requires OrphanBatch(db.Snapshot(), orphans.ids, now - ORPHAN_AGE, SWEEP_BATCH_SIZE, orphans.locked)
      requires UnreferencedBatch(AfterSweep(db.Snapshot(), orphans), unreferenced.ids, SWEEP_BATCH_SIZE, unreferenced.locked)
      modifies db, this`store
      ensures WellKept(db.Snapshot()) && db.Snapshot() == AfterSweep(old(db.Snapshot()), orphans)
      ensures store == if orphans.failing > 0 then old(store)
                       else Without(old(store), AllRemovals(storages, RowsOf(old(db.objects), orphans.ids), fails, |orphans.ids|))
    {
      OrphanSweepKeeps(db.Snapshot(), orphans.ids, now - ORPHAN_AGE, SWEEP_BATCH_SIZE, orphans.locked);
      SweepOrphans(db, now, orphans, fails);
      NothingUnreferenced(db.Snapshot(), unreferenced.ids, SWEEP_BATCH_SIZE, unreferenced.locked);
      NothingDeleted(db.Snapshot());
      WithoutMore(store, {}, {});
      SweepUnreferenced(db, unreferenced, fails);
    }
  }

  lemma NothingDeleted(db: Tables)
    ensures Deleted(db, ToSet([])) == db
  {}

  // ------------------------------------------------------------ what a pass does

  /** Backend j deletes `u` as the presign object of `oid`. */
  predicate Removes(backends: seq<Backend>, j: int, oid: Oid, i: int, fails: Failures, u: Uri) {
    0 <= j < |backends| && backends[j].Bucket? && Deletable(backends[j], oid, i, fails) && u == UriOf(backends[j], oid)
  }

  lemma RemovedIsGone(backends: seq<Backend>, j: nat, oid: Oid, i: int, fails: Failures, u: Uri, k: nat)
    requires j < k <= |backends| && Removes(backends, j, oid, i, fails, u)
    ensures u in PresignRemovals(backends, oid, i, fails, k)
  {
    InUnion(PresignCells(backends, oid, i, fails), k, u);
    assert u in PresignCells(backends, oid, i, fails)(j);
  }

  lemma GoneWasRemoved(backends: seq<Backend>, oid: Oid, i: int, fails: Failures, u: Uri, k: nat) returns (j: nat)
    requires u in PresignRemovals(backends, oid, i, fails, k)
    ensures j < k && Removes(backends, j, oid, i, fails, u)
  {
    InUnion(PresignCells(backends, oid, i, fails), k, u);
    j :| 0 <= j < k && u in PresignCells(backends, oid, i, fails)(j);
  }

  lemma {:induction false} PresignFailedMeaning(backends: seq<Backend>, oid: Oid, i: int, fails: Failures, k: nat)
    requires k <= |backends|
    ensures PresignFailed(backends, oid, i, fails, k) <==>
              exists j :: 0 <= j < k && backends[j].Bucket? && !Deletable(backends[j], oid, i, fails)
  {
    if k > 0 {
      PresignFailedMeaning(backends, oid, i, fails, k - 1);
    }
  }

  lemma {:induction false} FailedCountMeaning(backends: seq<Backend>, objects: seq<Row>, fails: Failures, k: nat)
    requires k <= |objects|
    ensures FailedCount(backends, objects, fails, k) <= k
    ensures FailedCount(backends, objects, fails, k) == |set i | 0 <= i < k && Failed(backends, objects[i], i, fails)|
  {
    if k > 0 {
      FailedCountMeaning(backends, objects, fails, k - 1);
      var before := set i | 0 <= i < k - 1 && Failed(backends, objects[i], i, fails);
      var after := set i | 0 <= i < k && Failed(backends, objects[i], i, fails);
      assert after == before + if Failed(backends, objects[k - 1], k - 1, fails) then {k - 1} else {};
    }
  }

  /** Whatever fails, only the presign objects of the swept pending objects
      disappear: every blob of another object is untouched, in any backend. */
  lemma OnlyOwnBlobsGo(storages: seq<Backend>, objects: seq<Row>, fails: Failures, store: map<Uri, Bytes>, b: Backend, oid: Oid)
    requires forall o | o in objects :: ValidOid(o.oid) && o.uri.GetOr("") == ""
    requires ValidOid(oid) && forall o | o in objects :: o.oid != oid
    ensures var after := Without(store, AllRemovals(storages, objects, fails, |objects|));
            && (UriOf(b, oid) in after <==> UriOf(b, oid) in store)
            && (UriOf(b, oid) in after ==> after[UriOf(b, oid)] == store[UriOf(b, oid)])
  {
    var u := UriOf(b, oid);
    if u in AllRemovals(storages, objects, fails, |objects|) {
      var i := LostBySome(storages, objects, fails, u, |objects|);
      assert objects[i] in objects;
      var j := GoneWasRemoved(storages, objects[i].oid, i, fails, u, |storages|);
      UriDeterminesOid(b, oid, storages[j], objects[i].oid);
    }
  }

  /** With well-formed backends a pending object is counted as failed exactly
      when one of its own delete calls fails, and is gone from every bucket
      otherwise. */
  lemma OrphanFailsIff(storages: seq<Backend>, row: Row, i: int, fails: Failures)
    requires forall b | b in storages :: WellFormed(b)
    requires ValidOid(row.oid) && row.uri.GetOr("") == ""
    ensures Failed(storages, row, i, fails) <==> exists b :: b in storages && b.Bucket? && fails(i, UriOf(b, row.oid))
    ensures !Failed(storages, row, i, fails) ==>
              forall b | b in storages && b.Bucket? :: UriOf(b, row.oid) in Removals(storages, row, i, fails)
  {
    PresignFailedMeaning(storages, row.oid, i, fails, |storages|);
    forall b | b in storages && b.Bucket?
      ensures Deletable(b, row.oid, i, fails) <==> !fails(i, UriOf(b, row.oid))
      ensures !Failed(storages, row, i, fails) ==> UriOf(b, row.oid) in Removals(storages, row, i, fails)
    {
      KeyRoundTrip(b.scheme, b.bucket, row.oid);
      var j :| 0 <= j < |storages| && storages[j] == b;
      if Deletable(b, row.oid, i, fails) {
        RemovedIsGone(storages, j, row.oid, i, fails, UriOf(b, row.oid), |storages|);
      }
    }
  }

  // ------------------------------------------------------------ the state machine's deletes

  /** Failures that depend on the URI alone. */
  function ByUri(drops: Uri -> bool): Failures {
    (i: int, u: Uri) => drops(u)
  }

  /** SweepDelete of the server's state machine, step after step. */
  function SweepDeletes(cfg: Config, w: World, uris: seq<Uri>, drops: Uri -> bool): World
    decreases |uris|
  {
    if uris == [] then w
    else
      var c := Choice(0, if drops(uris[0]) then Fails else NoFault, [], {});
      SweepDeletes(cfg, SweepStep(cfg, w, SweepDelete(uris), c).0, uris[1..], drops)
  }

  lemma {:induction false} SweepDeletesMeaning(cfg: Config, w: World, uris: seq<Uri>, drops: Uri -> bool)
    ensures SweepDeletes(cfg, w, uris, drops) == w.(store := Without(w.store, set u | u in uris && !drops(u)))
    decreases |uris|
  {
    if uris == [] {
      assert Without(w.store, set u | u in uris && !drops(u)) == w.store;
    } else {
      var store' := if drops(uris[0]) then w.store else Removed(w.store, uris[0]);
      SweepDeletesMeaning(cfg, w.(store := store'), uris[1..], drops);
      assert forall u :: u in uris <==> u == uris[0] || u in uris[1..];
      assert Without(store', set u | u in uris[1..] && !drops(u)) == Without(w.store, set u | u in uris && !drops(u));
    }
  }

  lemma {:induction false} PresignTargetsMeaning(janitor: seq<Backend>, oid: Oid, u: Uri)
    ensures u in PresignTargets(janitor, oid) <==>
            exists j :: 0 <= j < |janitor| && janitor[j].Bucket? && Resolves(janitor[j], u) && u == UriOf(janitor[j], oid)
  {}

  /** What one object loses is its targets less the failing ones. */
  lemma RemovalsAreTargets(janitor: seq<Backend>, row: Row, i: int, fails: Failures, u: Uri)
    ensures u in Removals(janitor, row, i, fails) <==> u in Targets(janitor, row) && !fails(i, u)
  {
    if row.uri.GetOr("") == "" {
      PresignTargetsMeaning(janitor, row.oid, u);
      if u in Removals(janitor, row, i, fails) {
        var j := GoneWasRemoved(janitor, row.oid, i, fails, u, |janitor|);
      }
      if u in PresignTargets(janitor, row.oid) && !fails(i, u) {
        var j :| 0 <= j < |janitor| && janitor[j].Bucket? && Resolves(janitor[j], u) && u == UriOf(janitor[j], row.oid);
        RemovedIsGone(janitor, j, row.oid, i, fails, u, |janitor|);
      }
    }
  }

  lemma LostByOne(backends: seq<Backend>, objects: seq<Row>, i: nat, fails: Failures, u: Uri, k: nat)
    requires i < k <= |objects| && u in Removals(backends, objects[i], i, fails)
    ensures u in AllRemovals(backends, objects, fails, k)
  {
    InUnion(RemovalsOf(backends, objects, fails), k, u);
    assert u in RemovalsOf(backends, objects, fails)(i);
  }

  lemma LostBySome(backends: seq<Backend>, objects: seq<Row>, fails: Failures, u: Uri, k: nat) returns (i: nat)
    requires k <= |objects| && u in AllRemovals(backends, objects, fails, k)
    ensures i < k && u in Removals(backends, objects[i], i, fails)
  {
    InUnion(RemovalsOf(backends, objects, fails), k, u);
    i :| 0 <= i < k && u in RemovalsOf(backends, objects, fails)(i);
  }

  lemma RemovalIsTarget(janitor: seq<Backend>, db: Tables, ids: seq<nat>, objects: seq<Row>, drops: Uri -> bool, u: Uri)
    requires |objects| == |ids| && forall i :: 0 <= i < |ids| ==> ids[i] in db.objects && objects[i] == db.objects[ids[i]]
    requires forall id | id in ids :: id in db.objects
    requires u in AllRemovals(janitor, objects, ByUri(drops), |objects|)
    ensures u in AllTargets(janitor, db, ids) && !drops(u)
  {
    var i := LostBySome(janitor, objects, ByUri(drops), u, |objects|);
    RemovalsAreTargets(janitor, objects[i], i, ByUri(drops), u);
    assert ids[i] in ids;
  }

  lemma TargetIsRemoval(janitor: seq<Backend>, db: Tables, ids: seq<nat>, objects: seq<Row>, drops: Uri -> bool, u: Uri)
    requires |objects| == |ids| && forall i :: 0 <= i < |ids| ==> ids[i] in db.objects && objects[i] == db.objects[ids[i]]
    requires forall id | id in ids :: id in db.objects
    requires u in AllTargets(janitor, db, ids) && !drops(u)
    ensures u in AllRemovals(janitor, objects, ByUri(drops), |objects|)
  {
    var id :| id in ids && u in Targets(janitor, db.objects[id]);
    var i :| 0 <= i < |ids| && ids[i] == id;
    RemovalsAreTargets(janitor, objects[i], i, ByUri(drops), u);
    LostByOne(janitor, objects, i, ByUri(drops), u, |objects|);
  }

  lemma SameCells(janitor: seq<Backend>, db: Tables, ids: seq<nat>, objects: seq<Row>, drops: Uri -> bool)
    requires |objects| == |ids| && forall i :: 0 <= i < |ids| ==> ids[i] in db.objects && objects[i] == db.objects[ids[i]]
    requires forall id | id in ids :: id in db.objects
    ensures AllRemovals(janitor, objects, ByUri(drops), |objects|) == set u | u in AllTargets(janitor, db, ids) && !drops(u)
  {
    forall u | u in AllRemovals(janitor, objects, ByUri(drops), |objects|) ensures u in AllTargets(janitor, db, ids) && !drops(u) {
      RemovalIsTarget(janitor, db, ids, objects, drops, u);
    }
    forall u | u in AllTargets(janitor, db, ids) && !drops(u) ensures u in AllRemovals(janitor, objects, ByUri(drops), |objects|) {
      TargetIsRemoval(janitor, db, ids, objects, drops, u);
    }
  }

  /** The loops do to the store what the state machine says a sweep does. */
  lemma PassIsTheMachines(cfg: Config, w: World, ids: seq<nat>, objects: seq<Row>, drops: Uri -> bool)
    requires |objects| == |ids| && forall i :: 0 <= i < |ids| ==> ids[i] in w.db.objects && objects[i] == w.db.objects[ids[i]]
    requires forall id | id in ids :: id in w.db.objects
    ensures SweepDeletes(cfg, w, AllTargets(cfg.janitor, w.db, ids), drops).store ==
            Without(w.store, AllRemovals(cfg.janitor, objects, ByUri(drops), |objects|))
  {
    SweepDeletesMeaning(cfg, w, AllTargets(cfg.janitor, w.db, ids), drops);
    SameCells(cfg.janitor, w.db, ids, objects, drops);
  }
}
