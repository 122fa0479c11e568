/** Winner agreement at the level of statements: however the statements of any
    number of transactions interleave, what a LinkObject or VerifyObject commits
    is what the atomic transactions promise, and all calls for one object agree. */
module Winners {
  import opened Wrappers
  import opened Uris
  import opened Tables
  import opened Statements
  import opened Isolation

  predicate Links(job: Job) {
    job.LinkJob? || job.VerifyJob?
  }

  /** The row a call is about to link: of its object and size, with the URI it
      offers if no verified version was committed before. */
  predicate JobRow(b: Base, t: Txn, id: nat)
    requires Links(t.job)
  {
    && Visible(b, t, id).Some?
    && var row := Visible(b, t, id).value;
       && !Pending(row) && row.oid == t.job.oid && row.size == Some(t.job.size) && row.uri.Some?
       && (id !in b.objects || Pending(b.objects[id]) ==> row.uri == Some(t.job.uri))
  }

  /** The call has checked this row and keeps its URI. */
  predicate Checked(b: Base, t: Txn, id: nat)
    requires Links(t.job)
  {
    JobRow(b, t, id) && t.stored == Visible(b, t, id).value.uri
  }

  /** Its link is there or about to be committed, and it touches nothing else. */
  predicate Settles(b: Base, t: Txn, id: nat)
    requires Links(t.job)
  {
    && Checked(b, t, id) && Link(t.job.repo, id) in b.links + t.links
    && t.links <= {Link(t.job.repo, id)} && t.rows.Keys <= {id}
  }

  ghost predicate JobOk(b: Base, t: Txn) {
    Links(t.job) ==>
      match t.pc
      case Reload => forall id | id in t.rows :: JobRow(b, t, id)
      case Attach(id) => Checked(b, t, id)
      case Recount(id) => Checked(b, t, id)
      case WriteCount(id, _) => Checked(b, t, id)
      case Commit => exists id :: Settles(b, t, id)
      case _ => true
  }

  // ------------------------------------------------------------ stability

  lemma JobRowStays(b: Base, b': Base, tx: nat, t: Txn, id: nat)
    requires Links(t.job) && TxnOk(b, tx, t) && Rely(b, b', tx) && JobRow(b, t, id)
    ensures JobRow(b', t, id) && Visible(b', t, id).value.uri == Visible(b, t, id).value.uri
  {
    if id in t.rows {
      assert OwnRow(b, tx, id, t.rows[id]);
    }
  }

  lemma JobStays(b: Base, b': Base, tx: nat, t: Txn)
    requires TxnOk(b, tx, t) && Rely(b, b', tx) && JobOk(b, t)
    ensures JobOk(b', t)
  {
    if Links(t.job) {
      match t.pc
      case Reload =>
        forall id | id in t.rows ensures JobRow(b', t, id) { JobRowStays(b, b', tx, t, id); }
      case Attach(id) => JobRowStays(b, b', tx, t, id);
      case Recount(id) => JobRowStays(b, b', tx, t, id);
      case WriteCount(id, _) => JobRowStays(b, b', tx, t, id);
      case Commit =>
        var id :| Settles(b, t, id);
        JobRowStays(b, b', tx, t, id);
        assert Settles(b', t, id);
      case _ =>
    }
  }

  // ------------------------------------------------------------ statement by statement

  ghost predicate Keeps(r: StepResult) {
    r.1.Some? ==> JobOk(r.0, r.1.value)
  }

  lemma CheckKeeps(b: Base, tx: nat, t: Txn, id: nat, row: Row)
    requires Links(t.job) && Visible(b, t, id) == Some(row) && !Pending(row) && row.oid == t.job.oid && row.size.Some?
    requires id !in b.objects || Pending(b.objects[id]) ==> row.uri == Some(t.job.uri)
    ensures Keeps(AfterCheck(b, tx, t, id, row))
  {}

  lemma UpsertKeeps(b: Base, tx: nat, t: Txn)
    requires BaseOk(b) && TxnOk(b, tx, t) && t.job.LinkJob? && t.pc.First?
    ensures Keeps(UpsertStep(b, tx, t))
  {
    var LinkJob(_, oid, size, uri, now) := t.job;
    match Find(b, oid)
    case None =>
      FreshIsFree(b);
      CheckKeeps(Claimed(b, oid, tx), tx, t.(rows := map[b.nextId := NewRow(t.job)]), b.nextId, NewRow(t.job));
    case Some(id) =>
      assert CommittedRow(b, id);
      var row := Coalesced(b.objects[id], size, uri, now);
      CheckKeeps(Locked(b, id, tx), tx, t.(rows := map[id := row]), id, row);
  }

  lemma MarkKeeps(b: Base, tx: nat, t: Txn, pick: Pick)
    requires TxnOk(b, tx, t) && t.job.VerifyJob? && t.pc.First?
    ensures Keeps(MarkStep(b, tx, t, pick))
  {}

  lemma ReloadKeeps(b: Base, tx: nat, t: Txn)
    requires BaseOk(b) && TxnOk(b, tx, t) && t.job.VerifyJob? && t.pc.Reload? && JobOk(b, t)
    ensures Keeps(ReloadStep(b, tx, t))
  {
    if t.rows != map[] {
      var id :| id in t.rows;
      assert JobRow(b, t, id) && forall other | other in t.rows :: other == id;
      CheckKeeps(b, tx, t, id, t.rows[id]);
    } else if Find(b, t.job.oid).Some? {
      var id := Find(b, t.job.oid).value;
      assert CommittedRow(b, id);
      if !Pending(b.objects[id]) { CheckKeeps(b, tx, t, id, b.objects[id]); }
    }
  }

  lemma AttachKeepsJob(b: Base, tx: nat, t: Txn)
    requires TxnOk(b, tx, t) && t.pc.Attach? && Links(t.job) && JobOk(b, t)
    ensures Keeps(AttachStep(b, tx, t))
  {
    if Link(t.job.repo, t.pc.id) in b.links {
      assert Settles(b, t.(pc := Commit), t.pc.id);
    }
  }

  lemma RecountKeepsJob(b: Base, tx: nat, t: Txn)
    requires TxnOk(b, tx, t) && (t.pc.Recount? || t.pc.WriteCount?) && Links(t.job) && JobOk(b, t)
    ensures Keeps(RecountStep(b, tx, t))
  {
    if t.pc.WriteCount? && !LockedByOther(b, t.pc.id, tx) {
      assert Settles(RecountStep(b, tx, t).0, RecountStep(b, tx, t).1.value, t.pc.id);
    }
  }

  lemma StepKeepsJob(b: Base, tx: nat, t: Txn, pick: Pick)
    requires BaseOk(b) && TxnOk(b, tx, t) && JobOk(b, t)
    ensures Keeps(TxStep(b, tx, t, pick))
  {
    match t.pc
    case First =>
      if t.job.LinkJob? {
        UpsertKeeps(b, tx, t);
      } else if t.job.VerifyJob? {
        MarkKeeps(b, tx, t, pick);
      }
    case Reload => if t.job.VerifyJob? { ReloadKeeps(b, tx, t); }
    case Attach(_) => AttachKeepsJob(b, tx, t);
    case Recount(_) => RecountKeepsJob(b, tx, t);
    case WriteCount(_, _) => RecountKeepsJob(b, tx, t);
    case Selecting(_) =>
    case Commit =>
  }

  // ------------------------------------------------------------ every run

  ghost predicate JobsOk(s: Sql) {
    SqlInv(s) && forall tx | tx in s.txns :: JobOk(s.base, s.txns[tx])
  }

  lemma OtherJobsStay(s: Sql, b: Base, tx: nat)
    requires JobsOk(s) && forall other | other != tx :: Rely(s.base, b, other)
    ensures forall other | other in s.txns && other != tx :: JobOk(b, s.txns[other])
  {
    forall other | other in s.txns && other != tx ensures JobOk(b, s.txns[other]) {
      assert TxnOk(s.base, other, s.txns[other]);
      JobStays(s.base, b, other, s.txns[other]);
    }
  }

  lemma ExecuteKeepsJobs(s: Sql, tx: nat, pick: Pick)
    requires JobsOk(s) && tx in s.txns
    ensures JobsOk(SqlNext(s, Execute(tx, pick)))
  {
    SqlNextKeeps(s, Execute(tx, pick));
    assert TxnOk(s.base, tx, s.txns[tx]) && JobOk(s.base, s.txns[tx]);
    var r := TxStep(s.base, tx, s.txns[tx], pick);
    StepGood(s.base, tx, s.txns[tx], pick);
    StepKeepsJob(s.base, tx, s.txns[tx], pick);
    OtherJobsStay(s, r.0, tx);
  }

  lemma NextKeepsJobs(s: Sql, e: SqlEvent)
    requires JobsOk(s)
    ensures JobsOk(SqlNext(s, e))
  {
    SqlNextKeeps(s, e);
    match e
    case Start(_, _) =>
    case Abort(tx) =>
      ReleasedKeeps(s.base, tx);
      OtherJobsStay(s, Released(s.base, tx), tx);
    case Execute(tx, pick) => if tx in s.txns { ExecuteKeepsJobs(s, tx, pick); }
  }

  lemma {:induction false} RunKeepsJobs(s: Sql, events: seq<SqlEvent>)
    requires JobsOk(s)
    ensures JobsOk(SqlRun(s, events))
    decreases |events|
  {
    if events != [] {
      NextKeepsJobs(s, events[0]);
      RunKeepsJobs(SqlNext(s, events[0]), events[1..]);
    }
  }

  // ------------------------------------------------------------ winners

  /** A call about to commit, and the URI it returns: the one it read at its
      upsert or reload. */
  predicate Returns(s: Sql, tx: nat, stored: Uri) {
    tx in s.txns && s.txns[tx].pc.Commit? && Links(s.txns[tx].job) && s.txns[tx].stored == Some(stored)
  }

  lemma LookupBefore(b: Base, tx: nat, t: Txn, id: nat)
    requires BaseOk(b) && TxnOk(b, tx, t) && Links(t.job) && JobRow(b, t, id)
    ensures if id in b.objects then Lookup(AsTables(b), t.job.oid) == Some(id) else Lookup(AsTables(b), t.job.oid).None?
  {
    if id in t.rows { assert OwnRow(b, tx, id, t.rows[id]); }
    if id in b.objects {
      LookupUnique(AsTables(b), t.job.oid, id);
    } else {
      assert IdsOf(AsTables(b), t.job.oid) == {};
    }
  }

  lemma CommittedTables(b: Base, tx: nat, t: Txn, id: nat)
    requires TxnOk(b, tx, t) && Links(t.job) && Settles(b, t, id)
    ensures var db' := AsTables(Committed(b, tx, t));
            && db'.links == b.links + {Link(t.job.repo, id)}
            && db'.objects == b.objects[id := Visible(b, t, id).value]
  {}

  /** Tables that differ in one row and its link. */
  lemma OneRowWins(db: Tables, db': Tables, id: nat, row: Row, repo: string, oid: Oid, size: int, offered: Uri, stored: Uri)
    requires UniqueOids(db') && db'.links == db.links + {Link(repo, id)} && db'.objects == db.objects[id := row]
    requires row.oid == oid && !Pending(row) && row.size == Some(size) && row.uri == Some(stored)
    requires Lookup(db, oid) == if id in db.objects then Some(id) else None
    requires id in db.objects && !Pending(db.objects[id]) ==> SameFacts(db.objects[id], row)
    requires id !in db.objects || Pending(db.objects[id]) ==> stored == offered
    ensures FirstWriterWins(db, db', repo, oid, size, offered, stored)
  {
    LookupUnique(db', oid, id);
  }

  lemma UniqueAfter(b: Base, tx: nat, t: Txn)
    requires BaseOk(b) && TxnOk(b, tx, t) && t.pc.Commit?
    ensures UniqueOids(AsTables(Committed(b, tx, t)))
  {
    CommitGood(b, tx, t);
  }

  lemma KeepsFacts(b: Base, tx: nat, t: Txn, id: nat)
    requires TxnOk(b, tx, t) && Visible(b, t, id).Some? && id in b.objects && !Pending(b.objects[id])
    ensures SameFacts(b.objects[id], Visible(b, t, id).value)
  {
    if id in t.rows { assert OwnRow(b, tx, id, t.rows[id]); }
  }

  /** What is committed at statement level is what the atomic transaction
      promises: the first writer's URI, one new link, nothing else touched. */
  lemma CommitIsFirstWriter(b: Base, tx: nat, t: Txn, id: nat)
    requires BaseOk(b) && TxnOk(b, tx, t) && t.pc.Commit? && Links(t.job) && Settles(b, t, id)
    ensures t.stored.Some?
    ensures FirstWriterWins(AsTables(b), AsTables(Committed(b, tx, t)), t.job.repo, t.job.oid, t.job.size, t.job.uri, t.stored.value)
  {
    var row := Visible(b, t, id).value;
    UniqueAfter(b, tx, t);
    LookupBefore(b, tx, t, id);
    CommittedTables(b, tx, t, id);
    if id in b.objects && !Pending(b.objects[id]) { KeepsFacts(b, tx, t, id); }
    OneRowWins(AsTables(b), AsTables(Committed(b, tx, t)), id, row, t.job.repo, t.job.oid, t.job.size, t.job.uri, row.uri.value);
  }

  /** In every reachable state, for every call about to commit. */
  lemma EveryCommitIsFirstWriter(events: seq<SqlEvent>, tx: nat) returns (stored: Uri)
    requires var s := SqlRun(SQL_EMPTY, events); tx in s.txns && s.txns[tx].pc.Commit? && Links(s.txns[tx].job)
    ensures var s := SqlRun(SQL_EMPTY, events);
            var job := s.txns[tx].job;
            && Returns(s, tx, stored)
            && FirstWriterWins(AsTables(s.base), AsTables(Committed(s.base, tx, s.txns[tx])), job.repo, job.oid, job.size, job.uri, stored)
  {
    RunKeepsJobs(SQL_EMPTY, events);
    var s := SqlRun(SQL_EMPTY, events);
    assert TxnOk(s.base, tx, s.txns[tx]) && JobOk(s.base, s.txns[tx]);
    var id :| Settles(s.base, s.txns[tx], id);
    CommitIsFirstWriter(s.base, tx, s.txns[tx], id);
    stored := s.txns[tx].stored.value;
  }

  /** Any two calls for one object that commit, one after the other with any
      statements in between, return the same URI. */
  lemma CommitsAgree(before: seq<SqlEvent>, tx: nat, pick: Pick, between: seq<SqlEvent>, later: nat) returns (stored: Uri)
    requires var s := SqlRun(SQL_EMPTY, before);
             var t := SqlRun(SqlNext(s, Execute(tx, pick)), between);
             && tx in s.txns && s.txns[tx].pc.Commit? && Links(s.txns[tx].job)
             && later in t.txns && t.txns[later].pc.Commit? && Links(t.txns[later].job)
             && s.txns[tx].job.oid == t.txns[later].job.oid
    ensures var s := SqlRun(SQL_EMPTY, before);
            var t := SqlRun(SqlNext(s, Execute(tx, pick)), between);
            Returns(s, tx, stored) && Returns(t, later, stored)
  {
    var s, e := SqlRun(SQL_EMPTY, before), Execute(tx, pick);
    var oid := s.txns[tx].job.oid;
    stored := EveryCommitIsFirstWriter(before, tx);
    var s1 := SqlNext(s, e);
    assert s1.base == Committed(s.base, tx, s.txns[tx]);
    var id := Lookup(AsTables(s1.base), oid).value;
    RunFromEmpty(before);
    SqlNextKeeps(s, e);
    CommittedIsWriteOnce(s1, between, id);
    SqlRunAppend(SQL_EMPTY, before, [e] + between);
    assert ([e] + between)[1..] == between;
    var again := EveryCommitIsFirstWriter(before + ([e] + between), later);
    var t := SqlRun(s1, between);
    RunFromEmpty(before + ([e] + between));
    LookupUnique(AsTables(t.base), oid, id);
  }
}
