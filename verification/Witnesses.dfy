/** Runs in which a property one might expect fails, for every configuration
    that has the backend in question. */
module Witnesses {
  import opened Wrappers
  import opened Uris
  import opened Tables
  import opened Sweeps
  import opened Streams
  import opened Lifecycle
  import opened Safety
  import opened Sizes
  import opened Presign

  const CALM: Choice := Choice(0, NoFault, [], {})

  lemma RunOne(cfg: Config, s: State, e: Event)
    ensures Run(cfg, s, [e]) == Next(cfg, s, e)
  {
    assert [e][1..] == [];
  }

  lemma RunThen(cfg: Config, s: State, events: seq<Event>, e: Event)
    ensures Run(cfg, s, events + [e]) == Next(cfg, Run(cfg, s, events), e)
  {
    RunAppend(cfg, s, events, [e]);
    RunOne(cfg, Run(cfg, s, events), e);
  }

  // ------------------------------------------------------------ a file of another length

  /** An upload stores a file and dies before linking it; another one declares
      any other size, is let through by the file, and its size is recorded. */
  lemma EarlyReturnRecordsDeclaredSize(cfg: Config, host: string, repo: string, data: Bytes, declared: int) returns (events: seq<Event>)
    requires host in cfg.backends && cfg.backends[host].Filesystem?
    requires ValidOid(cfg.sha(data)) && SizeOk(cfg, |data|) && SizeOk(cfg, declared) && declared != |data|
    ensures var w := Run(cfg, INITIAL, events).world;
            var uri := UriOf(cfg.backends[host], cfg.sha(data));
            Canonical(w.db, cfg.sha(data)) == Some(uri) && uri in w.store && w.store[uri] == data
            && w.db.objects[Lookup(w.db, cfg.sha(data)).value].size == Some(declared)
  {
    var oid, b := cfg.sha(data), cfg.backends[host];
    var uri := UriOf(b, oid);
    var body := [Chunk(data, Some(Eof))];
    var one := [Arrive(1, PutObject(host, repo, Write, oid, |data|, body))];
    RunOne(cfg, INITIAL, one[0]);
    RunThen(cfg, INITIAL, one, Advance(1, CALM));
    var two := one + [Advance(1, CALM)];
    assert Run(cfg, INITIAL, two) == State(INITIAL.world, map[1 := PutCopy(repo, b, oid, |data|, body)]);
    CopySucceedsIff(cfg.sha, body, |data|, oid);
    RunThen(cfg, INITIAL, two, Advance(1, CALM));
    var three := two + [Advance(1, CALM)];
    var stored := World(EMPTY, map[uri := data], {});
    assert Run(cfg, INITIAL, three) == State(stored, map[1 := PutLink(repo, oid, |data|, uri)]);
    var late := EarlyReturn(cfg, Run(cfg, INITIAL, three), host, repo, oid, declared);
    RunAppend(cfg, INITIAL, three, late);
    events := three + late;
  }

  lemma EarlyReturn(cfg: Config, s: State, host: string, repo: string, oid: Oid, declared: int) returns (events: seq<Event>)
    requires host in cfg.backends && cfg.backends[host].Filesystem? && ValidOid(oid) && SizeOk(cfg, declared)
    requires 2 !in s.procs && s.world.db == EMPTY && UriOf(cfg.backends[host], oid) in s.world.store
    ensures var w := Run(cfg, s, events).world;
            && w.store == s.world.store
            && Canonical(w.db, oid) == Some(UriOf(cfg.backends[host], oid))
            && w.db.objects[Lookup(w.db, oid).value].size == Some(declared)
  {
    var b := cfg.backends[host];
    var uri := UriOf(b, oid);
    var one := [Arrive(2, PutObject(host, repo, Write, oid, declared, []))];
    RunOne(cfg, s, one[0]);
    var two := one + [Advance(2, CALM)];
    RunThen(cfg, s, one, Advance(2, CALM));
    assert Run(cfg, s, two).procs[2] == PutLink(repo, oid, declared, uri) && Run(cfg, s, two).world == s.world;
    RunThen(cfg, s, two, Advance(2, CALM));
    UriEndsInOid(b, oid);
    LinkTxMeaning(EMPTY, repo, oid, declared, uri, 0);
    events := two + [Advance(2, CALM)];
  }

  // ------------------------------------------------------------ bytes lost to a late delete

  lemma SignedUpload(cfg: Config, s: State, pid: nat, host: string, repo: string, oid: Oid, size: int, now: int) returns (events: seq<Event>)
    requires host in cfg.backends && cfg.backends[host].Bucket? && ValidOid(oid) && SizeOk(cfg, size)
    requires pid !in s.procs && Lookup(s.world.db, oid).None?
    ensures var w := s.world;
            Run(cfg, s, events) ==
            State(World(Inserted(w.db, Row(oid, None, None, 0, now, None)), w.store,
                        w.tickets + {Ticket(UriOf(cfg.backends[host], oid), oid, size)}),
                  s.procs[pid := Finished(Redirect)])
  {
    var b, c := cfg.backends[host], Choice(now, NoFault, [], {});
    var one := [Arrive(pid, PutObject(host, repo, Write, oid, size, []))];
    var two, three := one + [Advance(pid, c)], one + [Advance(pid, c)] + [Advance(pid, c)];
    RunOne(cfg, s, one[0]);
    RunThen(cfg, s, one, Advance(pid, c));
    assert Run(cfg, s, two) == State(s.world, s.procs[pid := SignInsert(b, oid, size)]);
    RunThen(cfg, s, two, Advance(pid, c));
    RunThen(cfg, s, three, Advance(pid, c));
    events := three + [Advance(pid, c)];
  }

  lemma TargetsOfOne(db: Tables, b: Backend, oid: Oid)
    requires b.Bucket? && '/' !in b.bucket && ValidOid(oid) && 1 in db.objects && db.objects[1].oid == oid && db.objects[1].uri.None?
    ensures AllTargets([b], db, [1]) == [UriOf(b, oid)]
  {
    KeyRoundTrip(b.scheme, b.bucket, oid);
    assert PresignTargets([b], oid) == [UriOf(b, oid)] + PresignTargets([], oid);
    assert AllTargets([b], db, [1]) == Targets([b], db.objects[1]) + AllTargets([b], db, []);
  }

  lemma SelectsOne(db: Tables, oid: Oid, now: int)
    requires db == Inserted(EMPTY, Row(oid, None, None, 0, now, None)) && ValidOid(oid)
    ensures Selected(db, true, Choice(now + ORPHAN_AGE + 1, NoFault, [1], {}))
    ensures ToSet([1]) == {1}
  {
    assert Orphans(db, now + 1) - {} == {1} && ToSet([1]) == {1};
    assert Oldest(db, [1], {1}, SWEEP_BATCH_SIZE);
  }

  lemma SelectedRow(cfg: Config, w: World, b: Backend, oid: Oid, now: int)
    requires cfg.janitor == [b] && b.Bucket? && '/' !in b.bucket && ValidOid(oid)
    requires w.db == Inserted(EMPTY, Row(oid, None, None, 0, now, None))
    ensures SweepStep(cfg, w, SweepSelect(true), Choice(now + ORPHAN_AGE + 1, NoFault, [1], {})) ==
            (w.(db := Deleted(w.db, {1})), SweepDelete([UriOf(b, oid)]))
  {
    SelectsOne(w.db, oid, now);
    TargetsOfOne(w.db, b, oid);
  }

  lemma SelectingNext(cfg: Config, s: State, pid: nat, b: Backend, oid: Oid, now: int)
    requires cfg.janitor == [b] && b.Bucket? && '/' !in b.bucket && ValidOid(oid)
    requires pid in s.procs && s.procs[pid] == SweepSelect(true)
    requires s.world.db == Inserted(EMPTY, Row(oid, None, None, 0, now, None))
    ensures Next(cfg, s, Advance(pid, Choice(now + ORPHAN_AGE + 1, NoFault, [1], {}))) ==
            State(s.world.(db := Deleted(s.world.db, {1})), s.procs[pid := SweepDelete([UriOf(b, oid)])])
  {
    var c := Choice(now + ORPHAN_AGE + 1, NoFault, [1], {});
    SelectedRow(cfg, s.world, b, oid, now);
    AdvanceIsAct(cfg, s, pid, c);
    assert Act(cfg, s.world, SweepSelect(true), c) == SweepStep(cfg, s.world, SweepSelect(true), c);
  }

  lemma SweptRow(cfg: Config, s: State, pid: nat, b: Backend, oid: Oid, now: int) returns (events: seq<Event>)
    requires cfg.janitor == [b] && b.Bucket? && '/' !in b.bucket && ValidOid(oid) && pid !in s.procs
    requires s.world.db == Inserted(EMPTY, Row(oid, None, None, 0, now, None))
    ensures Run(cfg, s, events) ==
            State(s.world.(db := Deleted(s.world.db, {1})), s.procs[pid := SweepDelete([UriOf(b, oid)])])
  {
    var one := [Arrive(pid, OrphanSweep)];
    var select := Advance(pid, Choice(now + ORPHAN_AGE + 1, NoFault, [1], {}));
    RunOne(cfg, s, one[0]);
    RunThen(cfg, s, one, select);
    SelectingNext(cfg, s.(procs := s.procs[pid := SweepSelect(true)]), pid, b, oid, now);
    events := one + [select];
  }

  lemma MarkSettles(cfg: Config, w: World, repo: string, oid: Oid, size: int, uri: Uri)
    requires WellKept(w.db) && uri != "" && Lookup(w.db, oid).Some? && Pending(w.db.objects[Lookup(w.db, oid).value])
    ensures var (w', p) := Act(cfg, w, MarkVerified(repo, oid, size, uri), CALM);
            Canonical(w'.db, oid) == Some(uri) && w'.store == w.store
  {
    VerifyTxMeaning(w.db, repo, oid, size, uri, 0);
  }

  lemma VerifiedUpload(cfg: Config, s: State, pid: nat, host: string, repo: string, oid: Oid, size: int) returns (events: seq<Event>)
    requires host in cfg.backends && cfg.backends[host].Bucket? && ValidOid(oid) && pid !in s.procs
    requires WellKept(s.world.db) && Lookup(s.world.db, oid).Some? && Pending(s.world.db.objects[Lookup(s.world.db, oid).value])
    requires UriOf(cfg.backends[host], oid) in s.world.store && |s.world.store[UriOf(cfg.backends[host], oid)]| == size
    ensures var t := Run(cfg, s, events);
            && Canonical(t.world.db, oid) == Some(UriOf(cfg.backends[host], oid))
            && forall q | q in s.procs :: q in t.procs && t.procs[q] == s.procs[q]
  {
    var b := cfg.backends[host];
    var uri := UriOf(b, oid);
    var one := [Arrive(pid, VerifyPost(host, repo, Write, oid, size))];
    var two := one + [Advance(pid, CALM)];
    RunOne(cfg, s, one[0]);
    RunThen(cfg, s, one, Advance(pid, CALM));
    var s2 := State(s.world, s.procs[pid := MarkVerified(repo, oid, size, uri)]);
    assert Run(cfg, s, two) == s2;
    RunThen(cfg, s, two, Advance(pid, CALM));
    UriEndsInOid(b, oid);
    MarkSettles(cfg, s.world, repo, oid, size, uri);
    events := two + [Advance(pid, CALM)];
  }

  /** A sweep takes the pending row of an abandoned upload, and before its
      storage delete the object is uploaded again. */
  lemma Reuploaded(cfg: Config, host: string, repo: string, data: Bytes) returns (events: seq<Event>)
    requires host in cfg.backends && cfg.backends[host].Bucket? && '/' !in cfg.backends[host].bucket
    requires cfg.janitor == [cfg.backends[host]]
    requires ValidOid(cfg.sha(data)) && SizeOk(cfg, |data|)
    ensures var s, oid := Run(cfg, INITIAL, events), cfg.sha(data);
            var uri := UriOf(cfg.backends[host], oid);
            && s.procs.Keys == {1, 2, 3} && s.procs[2] == SweepDelete([uri])
            && s.world.store == map[uri := data]
            && s.world.db == Inserted(Deleted(Inserted(EMPTY, Row(oid, None, None, 0, 0, None)), {1}), Row(oid, None, None, 0, 0, None))
  {
    var oid, b := cfg.sha(data), cfg.backends[host];
    var e1 := SignedUpload(cfg, INITIAL, 1, host, repo, oid, |data|, 0);
    var s1 := Run(cfg, INITIAL, e1);
    var e2 := SweptRow(cfg, s1, 2, b, oid, 0);
    var s2 := Run(cfg, s1, e2);
    assert IdsOf(s2.world.db, oid) == {};
    var e3 := SignedUpload(cfg, s2, 3, host, repo, oid, |data|, 0);
    var put := ClientPut(Ticket(UriOf(b, oid), oid, |data|), data);
    RunOne(cfg, Run(cfg, s2, e3), put);
    events := e1 + (e2 + (e3 + [put]));
    RunAppend(cfg, INITIAL, e1, e2 + (e3 + [put]));
    RunAppend(cfg, s1, e2, e3 + [put]);
    RunAppend(cfg, s2, e3, [put]);
  }

  /** A delete that is still to come takes whatever is there by then. */
  lemma DeletesFirst(cfg: Config, t: State, pid: nat, uri: Uri)
    requires pid in t.procs && t.procs[pid] == SweepDelete([uri])
    ensures Next(cfg, t, Advance(pid, CALM)).world == t.world.(store := Removed(t.world.store, uri))
  {
    AdvanceIsAct(cfg, t, pid, CALM);
    assert Act(cfg, t.world, t.procs[pid], CALM) == SweepStep(cfg, t.world, t.procs[pid], CALM);
  }

  lemma CanonicalGone(cfg: Config, w: World, b: Backend, oid: Oid)
    requires b in cfg.backends.Values && b.Bucket? && ValidOid(oid)
    requires Canonical(w.db, oid) == Some(UriOf(b, oid)) && UriOf(b, oid) !in w.store
    ensures !BucketsKept(cfg, w)
  {
    NamedUri(cfg, b, oid);
    assert w.db.objects[Lookup(w.db, oid).value].uri.GetOr("") == UriOf(b, oid);
  }

  /** Then the new upload is verified, and the delete comes. */
  lemma LateDeleteLosesBytes(cfg: Config, host: string, repo: string, data: Bytes) returns (events: seq<Event>)
    requires host in cfg.backends && cfg.backends[host].Bucket? && '/' !in cfg.backends[host].bucket
    requires cfg.janitor == [cfg.backends[host]]
    requires ValidOid(cfg.sha(data)) && SizeOk(cfg, |data|)
    ensures var w := Run(cfg, INITIAL, events).world;
            var uri := UriOf(cfg.backends[host], cfg.sha(data));
            Canonical(w.db, cfg.sha(data)) == Some(uri) && uri !in w.store
    ensures !BucketsKept(cfg, Run(cfg, INITIAL, events).world)
  {
    var oid, b := cfg.sha(data), cfg.backends[host];
    var uri := UriOf(b, oid);
    var before := Reuploaded(cfg, host, repo, data);
    var s := Run(cfg, INITIAL, before);
    OneRow(s.world.db, oid);
    var verify := VerifiedUpload(cfg, s, 4, host, repo, oid, |data|);
    var t, del := Run(cfg, s, verify), Advance(2, CALM);
    RunOne(cfg, t, del);
    DeletesFirst(cfg, t, 2, uri);
    events := before + (verify + [del]);
    RunAppend(cfg, INITIAL, before, verify + [del]);
    RunAppend(cfg, s, verify, [del]);
    CanonicalGone(cfg, Next(cfg, t, del).world, b, oid);
  }

  // ------------------------------------------------------------ bytes lost to a stale mark

  /** A verify that has seen the object and not yet marked it. */
  lemma HeadSees(cfg: Config, s: State, pid: nat, host: string, repo: string, oid: Oid, size: int) returns (events: seq<Event>)
    requires host in cfg.backends && cfg.backends[host].Bucket? && ValidOid(oid) && pid !in s.procs
    requires UriOf(cfg.backends[host], oid) in s.world.store && |s.world.store[UriOf(cfg.backends[host], oid)]| == size
    ensures Run(cfg, s, events) == s.(procs := s.procs[pid := MarkVerified(repo, oid, size, UriOf(cfg.backends[host], oid))])
  {
    var one := [Arrive(pid, VerifyPost(host, repo, Write, oid, size))];
    RunOne(cfg, s, one[0]);
    RunThen(cfg, s, one, Advance(pid, CALM));
    events := one + [Advance(pid, CALM)];
  }

  /** An object is uploaded and a verify sees it; its row is still pending. */
  lemma SeenPending(cfg: Config, host: string, repo: string, data: Bytes) returns (events: seq<Event>)
    requires host in cfg.backends && cfg.backends[host].Bucket? && '/' !in cfg.backends[host].bucket
    requires ValidOid(cfg.sha(data)) && SizeOk(cfg, |data|)
    ensures var s, oid := Run(cfg, INITIAL, events), cfg.sha(data);
            var uri := UriOf(cfg.backends[host], oid);
            && s.procs == map[1 := Finished(Redirect), 2 := MarkVerified(repo, oid, |data|, uri)]
            && s.world.db == Inserted(EMPTY, Row(oid, None, None, 0, 0, None)) && s.world.store == map[uri := data]
  {
    var oid, b := cfg.sha(data), cfg.backends[host];
    var e1 := SignedUpload(cfg, INITIAL, 1, host, repo, oid, |data|, 0);
    var put := ClientPut(Ticket(UriOf(b, oid), oid, |data|), data);
    var s1 := Run(cfg, INITIAL, e1);
    RunOne(cfg, s1, put);
    var e3 := HeadSees(cfg, Next(cfg, s1, put), 2, host, repo, oid, |data|);
    events := e1 + ([put] + e3);
    RunAppend(cfg, INITIAL, e1, [put] + e3);
    RunAppend(cfg, s1, [put], e3);
  }

  /** Then a sweep takes the pending row, which is old by now, and deletes the
      object; then the object is asked for again, so that a new pending row waits
      for the old verify. */
  lemma SweptSinceHead(cfg: Config, host: string, repo: string, data: Bytes) returns (events: seq<Event>)
    requires host in cfg.backends && cfg.backends[host].Bucket? && '/' !in cfg.backends[host].bucket
    requires cfg.janitor == [cfg.backends[host]]
    requires ValidOid(cfg.sha(data)) && SizeOk(cfg, |data|)
    ensures var s, oid := Run(cfg, INITIAL, events), cfg.sha(data);
            && 2 in s.procs && s.procs[2] == MarkVerified(repo, oid, |data|, UriOf(cfg.backends[host], oid))
            && s.world.store == map[]
            && s.world.db == Inserted(Deleted(Inserted(EMPTY, Row(oid, None, None, 0, 0, None)), {1}), Row(oid, None, None, 0, 0, None))
  {
    var oid, b := cfg.sha(data), cfg.backends[host];
    var seen := SeenPending(cfg, host, repo, data);
    var s3 := Run(cfg, INITIAL, seen);
    var e4 := SweptRow(cfg, s3, 3, b, oid, 0);
    var s4, del := Run(cfg, s3, e4), Advance(3, CALM);
    RunOne(cfg, s4, del);
    var s5 := Next(cfg, s4, del);
    assert s5.world.store == map[] && IdsOf(s5.world.db, oid) == {};
    var e6 := SignedUpload(cfg, s5, 4, host, repo, oid, |data|, 0);
    events := seen + (e4 + ([del] + e6));
    RunAppend(cfg, INITIAL, seen, e4 + ([del] + e6));
    RunAppend(cfg, s3, e4, [del] + e6);
    RunAppend(cfg, s4, [del], e6);
  }

  /** The old verify then marks the new row, and nothing is stored. */
  lemma StaleMarkLosesBytes(cfg: Config, host: string, repo: string, data: Bytes) returns (events: seq<Event>)
    requires host in cfg.backends && cfg.backends[host].Bucket? && '/' !in cfg.backends[host].bucket
    requires cfg.janitor == [cfg.backends[host]]
    requires ValidOid(cfg.sha(data)) && SizeOk(cfg, |data|)
    ensures var w := Run(cfg, INITIAL, events).world;
            var uri := UriOf(cfg.backends[host], cfg.sha(data));
            Canonical(w.db, cfg.sha(data)) == Some(uri) && uri !in w.store
    ensures !BucketsKept(cfg, Run(cfg, INITIAL, events).world)
  {
    var oid, b := cfg.sha(data), cfg.backends[host];
    var uri := UriOf(b, oid);
    var before := SweptSinceHead(cfg, host, repo, data);
    var s, mark := Run(cfg, INITIAL, before), Advance(2, CALM);
    OneRow(s.world.db, oid);
    UriEndsInOid(b, oid);
    MarkSettles(cfg, s.world, repo, oid, |data|, uri);
    RunThen(cfg, INITIAL, before, mark);
    events := before + [mark];
    CanonicalGone(cfg, Next(cfg, s, mark).world, b, oid);
  }

  lemma OneRow(db: Tables, oid: Oid)
    requires db == Inserted(Deleted(Inserted(EMPTY, Row(oid, None, None, 0, 0, None)), {1}), Row(oid, None, None, 0, 0, None))
    ensures WellKept(db) && Lookup(db, oid) == Some(2) && Pending(db.objects[2])
  {
    assert LinksOf(db.links, 2) == {};
    assert db.objects.Keys == {2};
    LookupUnique(db, oid, 2);
  }
}
