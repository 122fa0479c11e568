/** Which URIs can be stored at the level of statements: one that is offered only
    for objects found verified beforehand never is. The batch handler offers its
    placeholder that way. */
module Offers {
  import opened Wrappers
  import opened Uris
  import opened Tables
  import opened Statements
  import opened Isolation
  import opened Winners
  import Lifecycle

  predicate Offer(job: Job, uri: Uri) {
    Links(job) && job.uri == uri
  }

  function VerifiedOids(b: Base): set<Oid> {
    set id | id in b.objects && !Pending(b.objects[id]) :: b.objects[id].oid
  }

  /** Whoever offers the URI has seen the object verified, now or at any time
      before: `known` are the objects that were verified so far. */
  ghost predicate OffersCaptured(uri: Uri, s: Sql, known: set<Oid>, events: seq<SqlEvent>)
    decreases |events|
  {
    var known' := known + VerifiedOids(s.base);
    events == [] ||
    (&& (events[0].Start? && Offer(events[0].job, uri) ==> events[0].job.oid in known')
     && OffersCaptured(uri, SqlNext(s, events[0]), known', events[1..]))
  }

  predicate CleanBase(b: Base, uri: Uri) {
    forall id | id in b.objects :: b.objects[id].uri != Some(uri)
  }

  predicate CleanTxn(b: Base, t: Txn, uri: Uri) {
    && (forall id | id in t.rows :: t.rows[id].uri != Some(uri))
    && (Offer(t.job, uri) ==> t.job.oid in VerifiedOids(b))
  }

  /** No row, committed or in hand, has the URI. */
  predicate Clean(s: Sql, uri: Uri) {
    CleanBase(s.base, uri) && forall tx | tx in s.txns :: CleanTxn(s.base, s.txns[tx], uri)
  }

  lemma VerifiedStay(b: Base, b': Base, me: nat)
    requires Rely(b, b', me)
    ensures VerifiedOids(b) <= VerifiedOids(b')
  {
    forall oid | oid in VerifiedOids(b) ensures oid in VerifiedOids(b') {
      var id :| id in b.objects && !Pending(b.objects[id]) && b.objects[id].oid == oid;
      assert !Pending(b'.objects[id]) && b'.objects[id].oid == oid;
    }
  }

  /** The row a call with this offer meets is verified and has another URI. */
  lemma MeetsVerified(b: Base, t: Txn, uri: Uri)
    requires BaseOk(b) && Offer(t.job, uri) && CleanTxn(b, t, uri)
    ensures Find(b, t.job.oid).Some? && !Pending(b.objects[Find(b, t.job.oid).value])
  {
    var id :| id in b.objects && !Pending(b.objects[id]) && b.objects[id].oid == t.job.oid;
    FindUnique(b, t.job.oid, id);
  }

  lemma UpsertClean(b: Base, tx: nat, t: Txn, uri: Uri)
    requires BaseOk(b) && CleanBase(b, uri) && CleanTxn(b, t, uri) && t.job.LinkJob?
    ensures var r := UpsertStep(b, tx, t);
            r.0.objects == b.objects && (r.1.Some? ==> forall id | id in r.1.value.rows :: r.1.value.rows[id].uri != Some(uri))
  {
    if t.job.uri == uri { MeetsVerified(b, t, uri); }
    if Find(b, t.job.oid).Some? { assert CommittedRow(b, Find(b, t.job.oid).value); }
  }

  lemma MarkClean(b: Base, tx: nat, t: Txn, pick: Pick, uri: Uri)
    requires BaseOk(b) && CleanBase(b, uri) && CleanTxn(b, t, uri) && t.job.VerifyJob?
    ensures var r := MarkStep(b, tx, t, pick);
            r.0.objects == b.objects && (r.1.Some? ==> forall id | id in r.1.value.rows :: r.1.value.rows[id].uri != Some(uri))
  {
    if t.job.uri == uri { MeetsVerified(b, t, uri); }
  }

  lemma CommitClean(b: Base, tx: nat, t: Txn, uri: Uri)
    requires CleanBase(b, uri) && CleanTxn(b, t, uri)
    ensures CleanBase(Committed(b, tx, t), uri)
  {}

  lemma OtherStepsClean(b: Base, tx: nat, t: Txn, pick: Pick, uri: Uri)
    requires CleanBase(b, uri) && CleanTxn(b, t, uri) && !t.pc.Commit? && !(t.pc.First? && Links(t.job))
    ensures var r := TxStep(b, tx, t, pick);
            CleanBase(r.0, uri) && (r.1.Some? ==> forall id | id in r.1.value.rows :: r.1.value.rows[id].uri != Some(uri))
  {}

  lemma StepClean(b: Base, tx: nat, t: Txn, pick: Pick, uri: Uri)
    requires BaseOk(b) && CleanBase(b, uri) && CleanTxn(b, t, uri)
    ensures var r := TxStep(b, tx, t, pick);
            CleanBase(r.0, uri) && (r.1.Some? ==> forall id | id in r.1.value.rows :: r.1.value.rows[id].uri != Some(uri))
  {
    if t.pc.Commit? {
      CommitClean(b, tx, t, uri);
    } else if t.pc.First? && t.job.LinkJob? {
      UpsertClean(b, tx, t, uri);
    } else if t.pc.First? && t.job.VerifyJob? {
      MarkClean(b, tx, t, pick, uri);
    } else {
      OtherStepsClean(b, tx, t, pick, uri);
    }
  }

  lemma StepKeepsJobOf(b: Base, tx: nat, t: Txn, pick: Pick)
    ensures var r := TxStep(b, tx, t, pick); r.1.Some? ==> r.1.value.job == t.job
  {}

  lemma NextClean(uri: Uri, s: Sql, e: SqlEvent)
    requires SqlInv(s) && Clean(s, uri) && (e.Start? && Offer(e.job, uri) ==> e.job.oid in VerifiedOids(s.base))
    ensures Clean(SqlNext(s, e), uri) && VerifiedOids(s.base) <= VerifiedOids(SqlNext(s, e).base)
  {
    match e
    case Start(_, _) =>
    case Abort(tx) => ReleasedKeeps(s.base, tx); VerifiedStay(s.base, Released(s.base, tx), tx + 1);
    case Execute(tx, pick) =>
      if tx in s.txns {
        assert TxnOk(s.base, tx, s.txns[tx]) && CleanTxn(s.base, s.txns[tx], uri);
        StepGood(s.base, tx, s.txns[tx], pick);
        VerifiedStay(s.base, TxStep(s.base, tx, s.txns[tx], pick).0, tx + 1);
        StepClean(s.base, tx, s.txns[tx], pick, uri);
        StepKeepsJobOf(s.base, tx, s.txns[tx], pick);
      }
  }

  lemma {:induction false} RunClean(uri: Uri, s: Sql, known: set<Oid>, events: seq<SqlEvent>)
    requires SqlInv(s) && Clean(s, uri) && known <= VerifiedOids(s.base) && OffersCaptured(uri, s, known, events)
    ensures Clean(SqlRun(s, events), uri)
    decreases |events|
  {
    if events != [] {
      NextClean(uri, s, events[0]);
      SqlNextKeeps(s, events[0]);
      RunClean(uri, SqlNext(s, events[0]), known + VerifiedOids(s.base), events[1..]);
    }
  }

  /** Over every interleaving of statements: a placeholder that is offered only
      for objects seen verified is in no row, committed or in hand. */
  lemma PlaceholderIsNeverStored(events: seq<SqlEvent>)
    requires OffersCaptured(Lifecycle.PLACEHOLDER, SQL_EMPTY, {}, events)
    ensures var s := SqlRun(SQL_EMPTY, events);
            && (forall id | id in s.base.objects :: s.base.objects[id].uri != Some(Lifecycle.PLACEHOLDER))
            && (forall tx, id | tx in s.txns && id in s.txns[tx].rows :: s.txns[tx].rows[id].uri != Some(Lifecycle.PLACEHOLDER))
  {
    RunClean(Lifecycle.PLACEHOLDER, SQL_EMPTY, {}, events);
    var s := SqlRun(SQL_EMPTY, events);
    forall tx, id | tx in s.txns && id in s.txns[tx].rows ensures s.txns[tx].rows[id].uri != Some(Lifecycle.PLACEHOLDER) {
      assert CleanTxn(s.base, s.txns[tx], Lifecycle.PLACEHOLDER);
    }
  }
}
