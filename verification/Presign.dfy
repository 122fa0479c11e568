/** Byte safety of bucket objects. The janitor deletes from storage after its
    transaction and VerifyObject runs after Head, so bytes can be lost in
    between; this says exactly when a step loses them, and that none does when
    both exchanges run undisturbed. */
module Presign {
  import opened Wrappers
  import opened Uris
  import opened Tables
  import opened Sweeps
  import opened Streams
  import opened Lifecycle
  import opened Safety
  import opened Steps
  import opened Guarantees
  import opened Sizes

  /** Every verified row with a bucket name has its object. */
  ghost predicate BucketsKept(cfg: Config, w: World) {
    forall id | id in w.db.objects && !Pending(w.db.objects[id]) && BucketName(cfg, w.db.objects[id].uri.GetOr("")) ::
      w.db.objects[id].uri.GetOr("") in w.store
  }

  /** VerifyObject marks a pending row although the object Head saw is gone. */
  ghost predicate StaleMark(w: World, p: Proc) {
    && p.MarkVerified?
    && Lookup(w.db, p.oid).Some? && Pending(w.db.objects[Lookup(w.db, p.oid).value])
    && p.uri !in w.store
  }

  /** The janitor deletes an object that has been verified since its sweep. */
  ghost predicate LateDelete(w: World, p: Proc) {
    && p.SweepDelete? && p.uris != []
    && |p.uris[0]| >= 64 && Canonical(w.db, OidOf(p.uris[0])) == Some(p.uris[0])
  }

  ghost predicate Loses(s: State, e: Event) {
    && e.Advance? && e.pid in s.procs && e.choice.fault != Fails
    && (StaleMark(s.world, s.procs[e.pid]) || LateDelete(s.world, s.procs[e.pid]))
  }

  // ------------------------------------------------------------ one step

  lemma TxKeepsBuckets(cfg: Config, w: World, db': Tables, repo: string, oid: Oid, size: int, offered: Uri, stored: Uri)
    requires FirstWriterWins(w.db, db', repo, oid, size, offered, stored) && BucketsKept(cfg, w)
    requires !IsVerified(w.db, oid) && BucketName(cfg, offered) ==> offered in w.store
    ensures BucketsKept(cfg, w.(db := db'))
  {
    var id := Lookup(db', oid).value;
    forall other | other in db'.objects && !Pending(db'.objects[other]) && BucketName(cfg, db'.objects[other].uri.GetOr(""))
      ensures db'.objects[other].uri.GetOr("") in w.store
    {
      if other != id {
        assert db'.objects[other] == w.db.objects[other];
      }
    }
  }

  lemma SettledKeepsBuckets(cfg: Config, w: World, r: TxResult, fault: Fault, repo: string, oid: Oid, size: int, uri: Uri)
    requires BucketsKept(cfg, w)
    requires r.1.Err? ==> r.0 == w.db
    requires r.1.Ok? ==> FirstWriterWins(w.db, r.0, repo, oid, size, uri, r.1.value)
    requires !IsVerified(w.db, oid) && BucketName(cfg, uri) ==> uri in w.store
    ensures BucketsKept(cfg, Settled(w, r, fault, repo, oid, size, uri).0)
  {
    if r.1.Ok? {
      TxKeepsBuckets(cfg, w, r.0, repo, oid, size, uri, r.1.value);
    }
  }

  lemma LinkKeepsBuckets(cfg: Config, w: World, p: Proc, c: Choice)
    requires GoodConfig(cfg) && WorldOk(cfg, w) && ProcOk(cfg, w, p) && p.PutLink? && BucketsKept(cfg, w)
    ensures BucketsKept(cfg, Act(cfg, w, p, c).0)
  {
    LinkTxMeaning(w.db, p.repo, p.oid, p.size, p.uri, c.now);
    NeverBoth(cfg, p.uri);
    SettledKeepsBuckets(cfg, w, LinkTx(w.db, p.repo, p.oid, p.size, p.uri, c.now), c.fault, p.repo, p.oid, p.size, p.uri);
  }

  lemma MarkKeepsBucketsIff(cfg: Config, w: World, p: Proc, c: Choice)
    requires WorldOk(cfg, w) && ProcOk(cfg, w, p) && p.MarkVerified? && BucketsKept(cfg, w) && c.fault != Fails
    ensures BucketsKept(cfg, Act(cfg, w, p, c).0) <==> !StaleMark(w, p)
  {
    VerifyTxMeaning(w.db, p.repo, p.oid, p.size, p.uri, c.now);
    var (db', r) := VerifyTx(w.db, p.repo, p.oid, p.size, p.uri, c.now);
    if StaleMark(w, p) {
      assert db'.objects[Lookup(db', p.oid).value].uri == Some(p.uri);
    } else if r.Ok? {
      TxKeepsBuckets(cfg, w, db', p.repo, p.oid, p.size, p.uri, r.value);
    }
  }

  lemma BatchKeepsBuckets(cfg: Config, w: World, p: Proc, c: Choice)
    requires WorldOk(cfg, w) && ProcOk(cfg, w, p) && p.BatchEntries? && BucketsKept(cfg, w)
    ensures BucketsKept(cfg, BatchStep(cfg, w, p, c).0)
  {
    if |p.entries| < |p.objects| && p.op == Upload && Dedup(cfg, p.found, p.objects[|p.entries|]) {
      var o := p.objects[|p.entries|];
      DedupLinks(cfg, w, p.repo, p.op, p.found, o, c.now);
      var (db', r) := LinkTx(w.db, p.repo, o.oid, o.size, PLACEHOLDER, c.now);
      TxKeepsBuckets(cfg, w, db', p.repo, o.oid, o.size, PLACEHOLDER, r.value);
    }
  }

  lemma RemoveKeepsBucketsIff(cfg: Config, w: World, uri: Uri)
    requires WorldOk(cfg, w) && BucketsKept(cfg, w) && (FileName(cfg, uri) || BucketName(cfg, uri))
    requires FileName(cfg, uri) ==> Canonical(w.db, OidOf(uri)) != Some(uri)
    ensures BucketsKept(cfg, w.(store := Removed(w.store, uri))) <==> Canonical(w.db, OidOf(uri)) != Some(uri)
  {
    if Canonical(w.db, OidOf(uri)) == Some(uri) {
      assert w.db.objects[Lookup(w.db, OidOf(uri)).value].uri.GetOr("") == uri;
    } else {
      forall id | id in w.db.objects && !Pending(w.db.objects[id]) ensures w.db.objects[id].uri != Some(uri) {
        assert RowOk(cfg, w, w.db.objects[id]);
        LookupUnique(w.db, w.db.objects[id].oid, id);
      }
    }
  }

  /** Steps that neither verify a row nor remove an object. */
  lemma OtherKeepsBuckets(cfg: Config, w: World, p: Proc, c: Choice)
    requires Shaped(p) && BucketsKept(cfg, w)
    requires !p.PutLink? && !p.MarkVerified? && !p.LoserDelete? && !p.BatchEntries? && !p.SweepDelete?
    ensures BucketsKept(cfg, Act(cfg, w, p, c).0)
  {}

  lemma ActKeepsBucketsIff(cfg: Config, w: World, p: Proc, c: Choice)
    requires GoodConfig(cfg) && WorldOk(cfg, w) && ProcOk(cfg, w, p) && BucketsKept(cfg, w) && c.fault != Fails
    ensures BucketsKept(cfg, Act(cfg, w, p, c).0) <==> !StaleMark(w, p) && !LateDelete(w, p)
  {
    if p.PutLink? {
      LinkKeepsBuckets(cfg, w, p, c);
    } else if p.MarkVerified? {
      MarkKeepsBucketsIff(cfg, w, p, c);
    } else if p.BatchEntries? {
      BatchKeepsBuckets(cfg, w, p, c);
    } else if p.LoserDelete? {
      RemoveKeepsBucketsIff(cfg, w, p.uri);
    } else if p.SweepDelete? {
      SweepDeleteKeepsIff(cfg, w, p, c);
    } else {
      OtherKeepsBuckets(cfg, w, p, c);
    }
  }

  lemma SweepDeleteKeepsIff(cfg: Config, w: World, p: Proc, c: Choice)
    requires GoodConfig(cfg) && WorldOk(cfg, w) && ProcOk(cfg, w, p) && p.SweepDelete? && BucketsKept(cfg, w) && c.fault != Fails
    ensures BucketsKept(cfg, Act(cfg, w, p, c).0) <==> !LateDelete(w, p)
  {
    if p.uris != [] {
      NeverBoth(cfg, p.uris[0]);
      RemoveKeepsBucketsIff(cfg, w, p.uris[0]);
    }
  }

  lemma FailedActKeepsBuckets(cfg: Config, w: World, p: Proc, c: Choice)
    requires Shaped(p) && BucketsKept(cfg, w) && c.fault == Fails
    ensures BucketsKept(cfg, Act(cfg, w, p, c).0)
  {
    if p.PutCopy? || p.PutStat? {
      OtherKeepsBuckets(cfg, w, p, c);
    }
  }

  /** A step loses the bytes of a verified bucket object exactly when it is a
      stale mark or a late delete, both of which can be seen before it. */
  lemma BucketsKeptIff(cfg: Config, s: State, e: Event)
    requires GoodConfig(cfg) && Inv(cfg, s) && BucketsKept(cfg, s.world)
    ensures BucketsKept(cfg, Next(cfg, s, e).world) <==> !Loses(s, e)
  {
    match e
    case Advance(pid, c) =>
      if pid in s.procs {
        assert ProcOk(cfg, s.world, s.procs[pid]);
        if c.fault == Fails {
          FailedActKeepsBuckets(cfg, s.world, s.procs[pid], c);
        } else {
          ActKeepsBucketsIff(cfg, s.world, s.procs[pid], c);
        }
      }
    case _ =>
  }

  // ------------------------------------------------------------ over runs

  ghost predicate AlwaysKept(cfg: Config, s: State, events: seq<Event>)
    decreases |events|
  {
    BucketsKept(cfg, s.world) && (events == [] || AlwaysKept(cfg, Next(cfg, s, events[0]), events[1..]))
  }

  ghost predicate NeverLoses(cfg: Config, s: State, events: seq<Event>)
    decreases |events|
  {
    events == [] || (!Loses(s, events[0]) && NeverLoses(cfg, Next(cfg, s, events[0]), events[1..]))
  }

  /** Over every run: each verified bucket object is stored at every point exactly
      if no event of the run is a stale mark or a late delete. */
  lemma {:induction false} AlwaysKeptIff(cfg: Config, s: State, events: seq<Event>)
    requires GoodConfig(cfg) && Inv(cfg, s) && BucketsKept(cfg, s.world)
    ensures AlwaysKept(cfg, s, events) <==> NeverLoses(cfg, s, events)
    ensures NeverLoses(cfg, s, events) ==> BucketsKept(cfg, Run(cfg, s, events).world)
    decreases |events|
  {
    if events != [] {
      NextKeeps(cfg, s, events[0]);
      BucketsKeptIff(cfg, s, events[0]);
      if !Loses(s, events[0]) {
        AlwaysKeptIff(cfg, Next(cfg, s, events[0]), events[1..]);
      }
    }
  }

  /** Then the stored bytes hash to the id and have the recorded size. */
  lemma BucketObjectsAreSafe(cfg: Config, events: seq<Event>, id: nat)
    requires GoodConfig(cfg) && CollisionFree(cfg.sha) && NeverLoses(cfg, INITIAL, events)
    requires var w := Run(cfg, INITIAL, events).world;
             id in w.db.objects && !Pending(w.db.objects[id]) && BucketName(cfg, w.db.objects[id].uri.GetOr(""))
    ensures var w := Run(cfg, INITIAL, events).world;
            var uri := w.db.objects[id].uri.GetOr("");
            && uri in w.store && cfg.sha(w.store[uri]) == w.db.objects[id].oid
            && w.db.objects[id].size == Some(|w.store[uri]|)
  {
    AlwaysKeptIff(cfg, INITIAL, events);
    StoredAsRecorded(cfg, events, id);
  }

  lemma StoredAsRecorded(cfg: Config, events: seq<Event>, id: nat)
    requires GoodConfig(cfg) && CollisionFree(cfg.sha) && BucketsKept(cfg, Run(cfg, INITIAL, events).world)
    requires var w := Run(cfg, INITIAL, events).world;
             id in w.db.objects && !Pending(w.db.objects[id]) && BucketName(cfg, w.db.objects[id].uri.GetOr(""))
    ensures var w := Run(cfg, INITIAL, events).world;
            var uri := w.db.objects[id].uri.GetOr("");
            && uri in w.store && cfg.sha(w.store[uri]) == w.db.objects[id].oid
            && w.db.objects[id].size == Some(|w.store[uri]|)
  {
    RunFromStart(cfg, events);
    var w := Run(cfg, INITIAL, events).world;
    assert RowOk(cfg, w, w.db.objects[id]);
    assert CellOk(cfg, w, w.db.objects[id].uri.GetOr(""));
    RecordedSizeIsLength(cfg, events, id);
  }

  // ------------------------------------------------------------ undisturbed exchanges

  /** The events of a run in which Head with its VerifyObject, and a sweep with
      its storage deletes, are each one uninterrupted exchange. */
  datatype Exchange =
    | Single(event: Event)
    | VerifyNow(pid: nat, head: Choice, mark: Choice)
    | SweepNow(pid: nat, choices: seq<Choice>)

  predicate Delicate(p: Proc) {
    p.HeadCheck? || p.MarkVerified? || p.SweepSelect? || p.SweepDelete?
  }

  /** Between exchanges no request has a Head answer or swept rows in hand. */
  ghost predicate Quiet(s: State) {
    forall pid | pid in s.procs :: !s.procs[pid].MarkVerified? && !s.procs[pid].SweepDelete?
  }

  function Advances(pid: nat, choices: seq<Choice>): seq<Event> {
    seq(|choices|, i requires 0 <= i < |choices| => Advance(pid, choices[i]))
  }

  ghost function Perform(cfg: Config, s: State, x: Exchange): State {
    match x
    case Single(e) =>
      if e.Advance? && e.pid in s.procs && Delicate(s.procs[e.pid]) then s else Next(cfg, s, e)
    case VerifyNow(pid, head, mark) =>
      if pid in s.procs && s.procs[pid].HeadCheck? then Next(cfg, Next(cfg, s, Advance(pid, head)), Advance(pid, mark)) else s
    case SweepNow(pid, choices) =>
      // a janitor that stops early stops for good
      if pid in s.procs && s.procs[pid].SweepSelect? then Next(cfg, Run(cfg, s, Advances(pid, choices)), Crash(pid)) else s
  }

  ghost function PerformAll(cfg: Config, s: State, xs: seq<Exchange>): State
    decreases |xs|
  {
    if xs == [] then s else PerformAll(cfg, Perform(cfg, s, xs[0]), xs[1..])
  }

  ghost predicate Steady(cfg: Config, s: State) {
    Inv(cfg, s) && BucketsKept(cfg, s.world) && Quiet(s)
  }

  lemma ActStaysQuiet(cfg: Config, w: World, p: Proc, c: Choice)
    requires Shaped(p) && !Delicate(p)
    ensures !Act(cfg, w, p, c).1.MarkVerified? && !Act(cfg, w, p, c).1.SweepDelete?
  {}

  lemma SingleStaysQuiet(cfg: Config, s: State, e: Event)
    requires Quiet(s)
    requires e.Advance? && e.pid in s.procs ==> Shaped(s.procs[e.pid]) && !Delicate(s.procs[e.pid])
    ensures Quiet(Next(cfg, s, e)) && !Loses(s, e)
  {
    if e.Advance? && e.pid in s.procs {
      ActStaysQuiet(cfg, s.world, s.procs[e.pid], e.choice);
    }
  }

  lemma SingleStaysSteady(cfg: Config, s: State, e: Event)
    requires GoodConfig(cfg) && Steady(cfg, s)
    ensures Steady(cfg, Perform(cfg, s, Single(e)))
  {
    if !(e.Advance? && e.pid in s.procs && Delicate(s.procs[e.pid])) {
      if e.Advance? && e.pid in s.procs { assert ProcOk(cfg, s.world, s.procs[e.pid]); }
      NextKeeps(cfg, s, e);
      SingleStaysQuiet(cfg, s, e);
      BucketsKeptIff(cfg, s, e);
    }
  }

  lemma HeadShowsObject(w: World, p: Proc, c: Choice)
    requires p.HeadCheck? && Shaped(p)
    ensures CheckStep(w, p, c).0 == w
    ensures var q := CheckStep(w, p, c).1; q.Finished? || (q.MarkVerified? && q.uri in w.store)
  {}

  lemma MarkGoesOn(cfg: Config, w: World, p: Proc, c: Choice)
    requires p.MarkVerified? || p.Finished?
    ensures var q := Act(cfg, w, p, c).1; q.Finished? || q.LoserDelete?
  {}

  /** Head moves one request on and changes nothing else. */
  lemma HeadMoves(cfg: Config, s: State, pid: nat, head: Choice)
    requires pid in s.procs && s.procs[pid].HeadCheck? && Shaped(s.procs[pid])
    ensures var s1 := Next(cfg, s, Advance(pid, head));
            && s1.world == s.world && s1.procs == s.procs[pid := s1.procs[pid]]
            && (s1.procs[pid].Finished? || (s1.procs[pid].MarkVerified? && s1.procs[pid].uri in s1.world.store))
  {
    HeadShowsObject(s.world, s.procs[pid], head);
  }

  lemma MarkMoves(cfg: Config, s: State, pid: nat, mark: Choice)
    requires pid in s.procs && (s.procs[pid].Finished? || (s.procs[pid].MarkVerified? && s.procs[pid].uri in s.world.store))
    requires forall q | q in s.procs && q != pid :: !s.procs[q].MarkVerified? && !s.procs[q].SweepDelete?
    ensures Quiet(Next(cfg, s, Advance(pid, mark))) && !Loses(s, Advance(pid, mark))
  {
    MarkGoesOn(cfg, s.world, s.procs[pid], mark);
  }

  lemma VerifyStaysSteady(cfg: Config, s: State, pid: nat, head: Choice, mark: Choice)
    requires GoodConfig(cfg) && Steady(cfg, s) && pid in s.procs && s.procs[pid].HeadCheck?
    ensures Steady(cfg, Perform(cfg, s, VerifyNow(pid, head, mark)))
  {
    assert ProcOk(cfg, s.world, s.procs[pid]);
    var s1 := Next(cfg, s, Advance(pid, head));
    HeadMoves(cfg, s, pid, head);
    MarkMoves(cfg, s1, pid, mark);
    NextKeeps(cfg, s, Advance(pid, head));
    NextKeeps(cfg, s1, Advance(pid, mark));
    BucketsKeptIff(cfg, s1, Advance(pid, mark));
  }

  /** A sweep in progress: what it still has to delete is not verified. */
  ghost predicate Sweeping(cfg: Config, s: State, pid: nat) {
    && Inv(cfg, s) && BucketsKept(cfg, s.world)
    && (forall q | q in s.procs && q != pid :: !s.procs[q].MarkVerified? && !s.procs[q].SweepDelete?)
    && pid in s.procs && (s.procs[pid].SweepSelect? || s.procs[pid].SweepDelete? || s.procs[pid].Finished?)
    && (s.procs[pid].SweepDelete? ==>
          forall u | u in s.procs[pid].uris :: |u| >= 64 && Canonical(s.world.db, OidOf(u)).None?)
  }

  lemma SelectLeavesUnverified(cfg: Config, w: World, c: Choice)
    requires GoodConfig(cfg) && WorldOk(cfg, w) && Selected(w.db, true, c)
    ensures var db' := Deleted(w.db, ToSet(c.ids));
            forall u | u in AllTargets(cfg.janitor, w.db, c.ids) :: |u| >= 64 && Canonical(db', OidOf(u)).None?
  {
    SelectedArePending(w.db, c);
    OrphanTargets(cfg, w, c.ids);
    OrphanSweepKeeps(w.db, c.ids, c.now - ORPHAN_AGE, SWEEP_BATCH_SIZE, c.locked);
  }

  lemma SelectStep(cfg: Config, w: World, p: Proc, c: Choice)
    requires GoodConfig(cfg) && WorldOk(cfg, w) && p.SweepSelect?
    ensures var (w', q) := SweepStep(cfg, w, p, c);
            && (q.SweepSelect? || q.SweepDelete? || q.Finished?)
            && (q.SweepDelete? ==> forall u | u in q.uris :: |u| >= 64 && Canonical(w'.db, OidOf(u)).None?)
  {
    if c.fault != Fails && Selected(w.db, p.orphans, c) {
      if p.orphans {
        SelectLeavesUnverified(cfg, w, c);
      } else {
        NothingUnreferenced(w.db, c.ids, SWEEP_BATCH_SIZE, c.locked);
      }
    }
  }

  lemma DeleteStep(cfg: Config, w: World, p: Proc, c: Choice)
    requires p.SweepDelete?
    ensures var (w', q) := SweepStep(cfg, w, p, c);
            w'.db == w.db && (q == Finished(Swept) || (q.SweepDelete? && forall u | u in q.uris :: u in p.uris))
  {}

  /** Neither phase of a sweep loses an object, and it stays a sweep. */
  lemma SweepActs(cfg: Config, w: World, p: Proc, c: Choice)
    requires GoodConfig(cfg) && WorldOk(cfg, w) && (p.SweepSelect? || p.SweepDelete? || p.Finished?)
    requires p.SweepDelete? ==> forall u | u in p.uris :: |u| >= 64 && Canonical(w.db, OidOf(u)).None?
    ensures !StaleMark(w, p) && !LateDelete(w, p)
    ensures var (w', q) := Act(cfg, w, p, c);
            && (q.SweepSelect? || q.SweepDelete? || q.Finished?)
            && (q.SweepDelete? ==> forall u | u in q.uris :: |u| >= 64 && Canonical(w'.db, OidOf(u)).None?)
  {
    if p.SweepSelect? {
      assert Act(cfg, w, p, c) == SweepStep(cfg, w, p, c);
      SelectStep(cfg, w, p, c);
    } else if p.SweepDelete? {
      assert Act(cfg, w, p, c) == SweepStep(cfg, w, p, c);
      DeleteStep(cfg, w, p, c);
    }
  }

  lemma SweepGoesOn(cfg: Config, s: State, pid: nat, c: Choice)
    requires GoodConfig(cfg) && Sweeping(cfg, s, pid)
    ensures Sweeping(cfg, Next(cfg, s, Advance(pid, c)), pid)
  {
    NextKeeps(cfg, s, Advance(pid, c));
    SweepActs(cfg, s.world, s.procs[pid], c);
    BucketsKeptIff(cfg, s, Advance(pid, c));
  }

  lemma {:induction false} SweepsGoOn(cfg: Config, s: State, pid: nat, choices: seq<Choice>)
    requires GoodConfig(cfg) && Sweeping(cfg, s, pid)
    ensures Sweeping(cfg, Run(cfg, s, Advances(pid, choices)), pid)
    decreases |choices|
  {
    if choices != [] {
      var events := Advances(pid, choices);
      assert events[0] == Advance(pid, choices[0]) && events[1..] == Advances(pid, choices[1..]);
      SweepGoesOn(cfg, s, pid, choices[0]);
      SweepsGoOn(cfg, Next(cfg, s, events[0]), pid, choices[1..]);
    }
  }

  lemma SweepStaysSteady(cfg: Config, s: State, pid: nat, choices: seq<Choice>)
    requires GoodConfig(cfg) && Steady(cfg, s) && pid in s.procs && s.procs[pid].SweepSelect?
    ensures Steady(cfg, Perform(cfg, s, SweepNow(pid, choices)))
  {
    SweepsGoOn(cfg, s, pid, choices);
    var t := Run(cfg, s, Advances(pid, choices));
    NextKeeps(cfg, t, Crash(pid));
  }

  lemma {:induction false} AllStaySteady(cfg: Config, s: State, xs: seq<Exchange>)
    requires GoodConfig(cfg) && Steady(cfg, s)
    ensures Steady(cfg, PerformAll(cfg, s, xs))
    decreases |xs|
  {
    if xs != [] {
      match xs[0] {
        case Single(e) => SingleStaysSteady(cfg, s, e);
        case VerifyNow(pid, head, mark) =>
          if pid in s.procs && s.procs[pid].HeadCheck? { VerifyStaysSteady(cfg, s, pid, head, mark); }
        case SweepNow(pid, choices) =>
          if pid in s.procs && s.procs[pid].SweepSelect? { SweepStaysSteady(cfg, s, pid, choices); }
      }
      AllStaySteady(cfg, Perform(cfg, s, xs[0]), xs[1..]);
    }
  }

  /** A run of exchanges is one of the server's runs. */
  lemma {:induction false} ExchangesAreRuns(cfg: Config, s: State, xs: seq<Exchange>) returns (events: seq<Event>)
    ensures PerformAll(cfg, s, xs) == Run(cfg, s, events)
    decreases |xs|
  {
    events := [];
    if xs != [] {
      var first := ExchangeIsRun(cfg, s, xs[0]);
      var rest := ExchangesAreRuns(cfg, Perform(cfg, s, xs[0]), xs[1..]);
      RunAppend(cfg, s, first, rest);
      events := first + rest;
    }
  }

  lemma ExchangeIsRun(cfg: Config, s: State, x: Exchange) returns (events: seq<Event>)
    ensures Perform(cfg, s, x) == Run(cfg, s, events)
  {
    if Perform(cfg, s, x) == s {
      events := [];
    } else {
      match x
      case Single(e) =>
        events := [e];
        assert events[1..] == [];
      case VerifyNow(pid, head, mark) =>
        events := [Advance(pid, head)] + [Advance(pid, mark)];
        RunAppend(cfg, s, [Advance(pid, head)], [Advance(pid, mark)]);
      case SweepNow(pid, choices) =>
        events := Advances(pid, choices) + [Crash(pid)];
        RunAppend(cfg, s, Advances(pid, choices), [Crash(pid)]);
    }
  }

  /** Undisturbed exchanges are runs without losses: over every such run, a
      verified row with a bucket name has its bytes in the bucket. */
  lemma UndisturbedBucketsAreSafe(cfg: Config, xs: seq<Exchange>, id: nat)
    requires GoodConfig(cfg) && CollisionFree(cfg.sha)
    requires var w := PerformAll(cfg, INITIAL, xs).world;
             id in w.db.objects && !Pending(w.db.objects[id]) && BucketName(cfg, w.db.objects[id].uri.GetOr(""))
    ensures var w := PerformAll(cfg, INITIAL, xs).world;
            var uri := w.db.objects[id].uri.GetOr("");
            && uri in w.store && cfg.sha(w.store[uri]) == w.db.objects[id].oid
            && w.db.objects[id].size == Some(|w.store[uri]|)
  {
    AllStaySteady(cfg, INITIAL, xs);
    var events := ExchangesAreRuns(cfg, INITIAL, xs);
    StoredAsRecorded(cfg, events, id);
  }
}
