/** The janitor's two selections: which rows a sweep takes, and how repeated
    sweeps drain what is eligible. */
module Sweeps {
  import opened Wrappers
  import opened Uris
  import opened Tables

  /** Pending rows created before the cutoff, now() - age. */
  function Orphans(db: Tables, cutoff: int): set<nat> {
    set id | id in db.objects && Pending(db.objects[id]) && db.objects[id].createdAt < cutoff
  }

  /** Verified rows whose count has dropped to zero. */
  function Unreferenced(db: Tables): set<nat> {
    set id | id in db.objects && !Pending(db.objects[id]) && db.objects[id].repoCount == 0
  }

  /** ORDER BY created_at for pending rows, ORDER BY verified_at for verified ones. */
  function Stamp(db: Tables, id: nat): int
    requires id in db.objects
  {
    db.objects[id].verifiedAt.GetOr(db.objects[id].createdAt)
  }

  predicate Distinct(ids: seq<nat>) {
    forall i, j :: 0 <= i < j < |ids| ==> ids[i] != ids[j]
  }

  function ToSet<T(==)>(items: seq<T>): set<T> {
    set x | x in items
  }

  /** ORDER BY ... LIMIT over a pool of rows. Ties may come in any order. */
  predicate Oldest(db: Tables, ids: seq<nat>, pool: set<nat>, limit: int)
    requires pool <= db.objects.Keys
  {
    && Distinct(ids) && ToSet(ids) <= pool
    && |ids| == (if limit <= 0 then 0 else if limit <= |pool| then limit else |pool|)
    && (forall i, j :: 0 <= i < j < |ids| ==> Stamp(db, ids[i]) <= Stamp(db, ids[j]))
    && (forall i, other :: 0 <= i < |ids| && other in pool - ToSet(ids) ==> Stamp(db, ids[i]) <= Stamp(db, other))
  }

  /** The rows SweepOrphanObjects may take while others hold `locked`. */
  predicate OrphanBatch(db: Tables, ids: seq<nat>, cutoff: int, limit: int, locked: set<nat>) {
    Oldest(db, ids, Orphans(db, cutoff) - locked, limit)
  }

  /** The rows SweepUnreferencedObjects may take. */
  predicate UnreferencedBatch(db: Tables, ids: seq<nat>, limit: int, locked: set<nat>) {
    Oldest(db, ids, Unreferenced(db) - locked, limit)
  }

  // ------------------------------------------------------------ the selection exists

  lemma {:induction false} EarliestExists(db: Tables, pool: set<nat>) returns (first: nat)
    requires pool <= db.objects.Keys && pool != {}
    ensures first in pool && forall other | other in pool :: Stamp(db, first) <= Stamp(db, other)
  {
    first :| first in pool;
    var rest := pool - {first};
    if rest != {} {
      var next := EarliestExists(db, rest);
      if Stamp(db, next) < Stamp(db, first) {
        first := next;
      }
    }
  }

  /** PostgreSQL always has an answer: some selection meets the statement. */
  lemma {:induction false} OldestExists(db: Tables, pool: set<nat>, limit: int) returns (ids: seq<nat>)
    requires pool <= db.objects.Keys
    ensures Oldest(db, ids, pool, limit)
  {
    if limit <= 0 || pool == {} {
      ids := [];
    } else {
      var first := EarliestExists(db, pool);
      var rest := OldestExists(db, pool - {first}, limit - 1);
      ids := [first] + rest;
      assert ToSet(ids) == {first} + ToSet(rest);
    }
  }

  // ------------------------------------------------------------ draining

  lemma {:induction false} DistinctSize(ids: seq<nat>)
    requires Distinct(ids)
    ensures |ToSet(ids)| == |ids|
  {
    if ids != [] {
      var rest := ids[1..];
      DistinctSize(rest);
      assert ToSet(ids) == {ids[0]} + ToSet(rest);
      assert ids[0] !in ToSet(rest);
    } else {
      assert ToSet(ids) == {};
    }
  }

  /** A sweep takes exactly its rows out of the eligible set. */
  lemma SweepShrinks(db: Tables, ids: seq<nat>, cutoff: int, limit: int, locked: set<nat>)
    requires OrphanBatch(db, ids, cutoff, limit, locked)
    ensures Orphans(Deleted(db, ToSet(ids)), cutoff) == Orphans(db, cutoff) - ToSet(ids)
    ensures |Orphans(Deleted(db, ToSet(ids)), cutoff)| == |Orphans(db, cutoff)| - |ids|
  {
    var db' := Deleted(db, ToSet(ids));
    var gone := ToSet(ids);
    assert Orphans(db', cutoff) == Orphans(db, cutoff) - gone;
    DistinctSize(ids);
    assert Orphans(db, cutoff) == (Orphans(db, cutoff) - gone) + gone;
  }

  /** Sweeps while the server goes on: sweep k takes its batch from before[k] at
      its own cutoff, and until the next one no row becomes eligible that was
      not. Anything else may happen in between. */
  predicate SweepSchedule(before: seq<Tables>, batches: seq<seq<nat>>, cutoffs: seq<int>, limit: int) {
    && |before| == |cutoffs| == |batches| + 1
    && forall k :: 0 <= k < |batches| ==> OneSweep(before, batches, cutoffs, limit, k)
  }

  predicate OneSweep(before: seq<Tables>, batches: seq<seq<nat>>, cutoffs: seq<int>, limit: int, k: nat)
    requires k < |batches| && |before| == |cutoffs| == |batches| + 1
  {
    && OrphanBatch(before[k], batches[k], cutoffs[k], limit, {})
    && Orphans(before[k + 1], cutoffs[k + 1]) <= Orphans(Deleted(before[k], ToSet(batches[k])), cutoffs[k])
  }

  lemma OneSweepShrinks(before: seq<Tables>, batches: seq<seq<nat>>, cutoffs: seq<int>, limit: int, k: nat)
    requires k < |batches| && |before| == |cutoffs| == |batches| + 1 && OneSweep(before, batches, cutoffs, limit, k) && 0 < limit
    ensures var n := |Orphans(before[k], cutoffs[k])|;
            |Orphans(before[k + 1], cutoffs[k + 1])| <= if n <= limit then 0 else n - limit
  {
    assert Orphans(before[k], cutoffs[k]) - {} == Orphans(before[k], cutoffs[k]);
    SweepShrinks(before[k], batches[k], cutoffs[k], limit, {});
    SubsetSize(Orphans(before[k + 1], cutoffs[k + 1]), Orphans(Deleted(before[k], ToSet(batches[k])), cutoffs[k]));
  }

  /** After k sweeps at most max(0, n - k * limit) of n rows are eligible. */
  lemma {:induction false} SweepsDrain(before: seq<Tables>, batches: seq<seq<nat>>, cutoffs: seq<int>, limit: int)
    requires SweepSchedule(before, batches, cutoffs, limit) && 0 < limit
    ensures var n, k := |Orphans(before[0], cutoffs[0])|, |batches|;
            |Orphans(before[k], cutoffs[k])| <= if n <= k * limit then 0 else n - k * limit
  {
    var k := |batches|;
    if k > 0 {
      var dbs, taken, times := before[..k], batches[..k - 1], cutoffs[..k];
      forall j | 0 <= j < |taken| ensures OneSweep(dbs, taken, times, limit, j) {
        assert OneSweep(before, batches, cutoffs, limit, j);
      }
      SweepsDrain(dbs, taken, times, limit);
      OneSweepShrinks(before, batches, cutoffs, limit, k - 1);
      Product(k - 1, limit);
    }
  }

  /** So ceil(n / limit) sweeps leave nothing eligible. */
  lemma SweepsSuffice(before: seq<Tables>, batches: seq<seq<nat>>, cutoffs: seq<int>, limit: int)
    requires SweepSchedule(before, batches, cutoffs, limit) && 0 < limit
    requires |batches| >= (|Orphans(before[0], cutoffs[0])| + limit - 1) / limit
    ensures Orphans(before[|batches|], cutoffs[|batches|]) == {}
  {
    SweepsDrain(before, batches, cutoffs, limit);
    CeilingDivision(|Orphans(before[0], cutoffs[0])|, |batches|, limit);
  }

  /** A run of sweeps at one cutoff with nothing at all in between. */
  predicate SweepRun(dbs: seq<Tables>, batches: seq<seq<nat>>, cutoff: int, limit: int) {
    && |dbs| == |batches| + 1
    && forall k :: 0 <= k < |batches| ==>
         && OrphanBatch(dbs[k], batches[k], cutoff, limit, {})
         && dbs[k + 1] == Deleted(dbs[k], ToSet(batches[k]))
  }

  /** After k of them exactly max(0, n - k * limit) of n eligible rows are left. */
  lemma {:induction false} UndisturbedDrain(dbs: seq<Tables>, batches: seq<seq<nat>>, cutoff: int, limit: int)
    requires SweepRun(dbs, batches, cutoff, limit) && 0 < limit
    ensures var n, k := |Orphans(dbs[0], cutoff)|, |batches|;
            |Orphans(dbs[k], cutoff)| == if n <= k * limit then 0 else n - k * limit
  {
    var k := |batches|;
    if k > 0 {
      var before := dbs[k - 1];
      UndisturbedDrain(dbs[..k], batches[..k - 1], cutoff, limit);
      assert dbs[..k][0] == dbs[0] && dbs[..k][k - 1] == before;
      LastSweep(dbs, batches, cutoff, limit);
      Product(k - 1, limit);
    }
  }

  lemma LastSweep(dbs: seq<Tables>, batches: seq<seq<nat>>, cutoff: int, limit: int)
    requires SweepRun(dbs, batches, cutoff, limit) && 0 < limit && 0 < |batches|
    ensures var n := |Orphans(dbs[|batches| - 1], cutoff)|;
            |Orphans(dbs[|batches|], cutoff)| == if n <= limit then 0 else n - limit
  {
    var k := |batches| - 1;
    assert OrphanBatch(dbs[k], batches[k], cutoff, limit, {}) && dbs[k + 1] == Deleted(dbs[k], ToSet(batches[k]));
    assert Orphans(dbs[k], cutoff) - {} == Orphans(dbs[k], cutoff);
    SweepShrinks(dbs[k], batches[k], cutoff, limit, {});
  }

  lemma Product(k: nat, limit: int)
    ensures (k + 1) * limit == k * limit + limit
  {}

  lemma Monotone(a: nat, b: nat, limit: int)
    requires a <= b && 0 < limit
    ensures a * limit <= b * limit
  {}

  /** ceil(n / limit) sweeps, and no fewer, empty the eligible set. */
  lemma SweepsNeeded(dbs: seq<Tables>, batches: seq<seq<nat>>, cutoff: int, limit: int)
    requires SweepRun(dbs, batches, cutoff, limit) && 0 < limit
    ensures Orphans(dbs[|batches|], cutoff) == {} <==> |batches| >= (|Orphans(dbs[0], cutoff)| + limit - 1) / limit
  {
    var n, k := |Orphans(dbs[0], cutoff)|, |batches|;
    UndisturbedDrain(dbs, batches, cutoff, limit);
    CeilingDivision(n, k, limit);
    assert Orphans(dbs[k], cutoff) == {} <==> |Orphans(dbs[k], cutoff)| == 0;
  }

  lemma CeilingDivision(n: nat, k: nat, limit: int)
    requires 0 < limit
    ensures n <= k * limit <==> k >= (n + limit - 1) / limit
  {
    var q := (n + limit - 1) / limit;
    assert q * limit <= n + limit - 1 < q * limit + limit;
    if k >= q {
      Monotone(q, k, limit);
    } else {
      Monotone(k + 1, q, limit);
      Product(k, limit);
    }
  }

  // ------------------------------------------------------------ safety

  /** SweepOrphanObjects removes pending rows only, and no link. */
  lemma OrphanSweepKeeps(db: Tables, ids: seq<nat>, cutoff: int, limit: int, locked: set<nat>)
    requires WellKept(db) && OrphanBatch(db, ids, cutoff, limit, locked)
    ensures WellKept(Deleted(db, ToSet(ids))) && Grows(db, Deleted(db, ToSet(ids)))
    ensures forall id | id in ids :: Lookup(Deleted(db, ToSet(ids)), db.objects[id].oid).None?
    ensures Deleted(db, ToSet(ids)).links == db.links
    ensures forall id | id in db.objects && id !in ids ::
              id in Deleted(db, ToSet(ids)).objects && Deleted(db, ToSet(ids)).objects[id] == db.objects[id]
  {
    DeletedKeeps(db, ToSet(ids));
    assert forall id | id in ids :: id in ToSet(ids);
  }

  /** While every count is exact there is nothing for SweepUnreferencedObjects. */
  lemma NothingUnreferenced(db: Tables, ids: seq<nat>, limit: int, locked: set<nat>)
    requires WellKept(db) && UnreferencedBatch(db, ids, limit, locked)
    ensures Unreferenced(db) == {} && ids == []
  {
    forall id | id in db.objects ensures id !in Unreferenced(db) {
      assert RowKept(db, id);
    }
    assert Unreferenced(db) == {};
    assert Unreferenced(db) - locked == {};
  }

  /** From any tables whose counts are exact (links may have been removed from
      outside), a row this sweep deletes has no link. */
  lemma UnreferencedHaveNoLinks(db: Tables, ids: seq<nat>, limit: int, locked: set<nat>)
    requires UnreferencedBatch(db, ids, limit, locked)
    requires forall id | id in db.objects :: db.objects[id].repoCount == |LinksOf(db.links, id)|
    ensures forall l | l in db.links :: l.objectId !in ids
    ensures Deleted(db, ToSet(ids)).links == db.links
  {
    forall l | l in db.links ensures l.objectId !in ids {
      assert l in LinksOf(db.links, l.objectId);
      assert l.objectId !in Unreferenced(db);
      assert l.objectId in ids ==> l.objectId in ToSet(ids);
    }
  }
}
