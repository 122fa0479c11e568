/** The same transactions one SQL statement at a time, at READ COMMITTED: rows
    are locked until the end of the transaction, a statement sees what is
    committed plus its own writes, and SKIP LOCKED passes over locked rows. */
module Statements {
  import opened Wrappers
  import opened Uris
  import opened Tables

  /** What is committed, and what transactions in progress hold: row locks and
      entries of the two unique indexes. */
  datatype Base = Base(
    objects: map<nat, Row>,
    links: set<Link>,
    nextId: nat,
    locks: map<nat, nat>,
    oidClaims: map<Oid, nat>,
    linkClaims: map<Link, nat>)

  datatype Job =
    | LinkJob(repo: string, oid: Oid, size: int, uri: Uri, now: int)
    | VerifyJob(repo: string, oid: Oid, size: int, uri: Uri, now: int)
    | PendingJob(oid: Oid, now: int)
    | OrphanJob(cutoff: int, limit: int)
    | UnreferencedJob(limit: int)

  /** The statement a transaction executes next. */
  datatype Pc =
    | First
    | Reload
    | Attach(id: nat)
    | Recount(id: nat)
    | WriteCount(id: nat, n: int)
    | Selecting(ids: set<nat>)
    | Commit

  /** A transaction in progress, its uncommitted writes, and the URI it will
      return once it has read one. */
  datatype Txn = Txn(job: Job, pc: Pc, rows: map<nat, Row>, links: set<Link>, gone: set<nat>, stored: Option<Uri>)

  function Started(job: Job): Txn {
    Txn(job, First, map[], {}, {}, None)
  }

  datatype Sql = Sql(base: Base, txns: map<nat, Txn>)

  /** pick: the row a sweep locks next, None when its SELECT is done. skip: the
      guarded UPDATE of VerifyObject misses a row committed after its snapshot. */
  datatype Pick = Pick(row: Option<nat>, skip: bool)

  datatype SqlEvent =
    | Start(tx: nat, job: Job)
    | Execute(tx: nat, pick: Pick)
    | Abort(tx: nat)

  const SQL_EMPTY: Sql := Sql(Base(map[], {}, 1, map[], map[], map[]), map[])

  // ------------------------------------------------------------ statements

  predicate LockedByOther(b: Base, id: nat, tx: nat) {
    id in b.locks && b.locks[id] != tx
  }

  ghost function Find(b: Base, oid: Oid): Option<nat> {
    Lookup(Tables(b.objects, b.links, b.nextId), oid)
  }

  function Locked(b: Base, id: nat, tx: nat): Base {
    b.(locks := b.locks[id := tx])
  }

  /** The end of a transaction frees everything it holds. */
  function Released(b: Base, tx: nat): Base {
    b.(locks := map id | id in b.locks && b.locks[id] != tx :: b.locks[id],
       oidClaims := map oid | oid in b.oidClaims && b.oidClaims[oid] != tx :: b.oidClaims[oid],
       linkClaims := map l | l in b.linkClaims && b.linkClaims[l] != tx :: b.linkClaims[l])
  }

  function Committed(b: Base, tx: nat, t: Txn): Base {
    Released(b.(objects := map id | id in b.objects.Keys + t.rows.Keys && id !in t.gone
                                    :: if id in t.rows then t.rows[id] else b.objects[id],
                links := b.links + t.links), tx)
  }

  /** Some(t): the transaction goes on as t. None: it has ended. */
  type StepResult = (Base, Option<Txn>)

  /** The row a statement of the transaction sees. */
  function Visible(b: Base, t: Txn, id: nat): Option<Row> {
    if id in t.rows then Some(t.rows[id]) else if id in b.objects then Some(b.objects[id]) else None
  }

  /** The checks on the row that a call has read; the URI is kept for later. */
  function AfterCheck(b: Base, tx: nat, t: Txn, id: nat, row: Row): StepResult
    requires t.job.LinkJob? || t.job.VerifyJob?
  {
    match Accepted(row, t.job.size)
    case Ok(uri) => (b, Some(t.(pc := Attach(id), stored := Some(uri))))
    case Err(_) => (Released(b, tx), None)
  }

  /** A new row, locked and visible to its transaction only. */
  function Claimed(b: Base, oid: Oid, tx: nat): Base {
    Locked(b, b.nextId, tx).(nextId := b.nextId + 1, oidClaims := b.oidClaims[oid := tx])
  }

  function NewRow(job: Job): Row
    requires job.LinkJob?
  {
    Row(job.oid, Some(job.size), Some(job.uri), 0, job.now, Some(job.now))
  }

  /** LinkObject's upsert. It waits for an uncommitted insert of the oid and for
      the row's lock. */
  ghost function UpsertStep(b: Base, tx: nat, t: Txn): StepResult
    requires t.job.LinkJob?
  {
    var LinkJob(_, oid, size, uri, now) := t.job;
    if oid in b.oidClaims then (b, Some(t))
    else
      match Find(b, oid)
      case None =>
        AfterCheck(Claimed(b, oid, tx), tx, t.(rows := map[b.nextId := NewRow(t.job)]), b.nextId, NewRow(t.job))
      case Some(id) =>
        if LockedByOther(b, id, tx) then (b, Some(t))
        else
          var row := Coalesced(b.objects[id], size, uri, now);
          AfterCheck(Locked(b, id, tx), tx, t.(rows := map[id := row]), id, row)
  }

  /** VerifyObject's guarded UPDATE: it locks the row only if it is pending. */
  ghost function MarkStep(b: Base, tx: nat, t: Txn, pick: Pick): StepResult
    requires t.job.VerifyJob?
  {
    var VerifyJob(_, oid, size, uri, now) := t.job;
    match Find(b, oid)
    case None => (b, Some(t.(pc := Reload)))
    case Some(id) =>
      if pick.skip || !Pending(b.objects[id]) then (b, Some(t.(pc := Reload)))
      else if LockedByOther(b, id, tx) then (b, Some(t))
      else (Locked(b, id, tx), Some(t.(pc := Reload, rows := map[id := MarkedRow(b.objects[id], oid, size, uri, now)])))
  }

  /** VerifyObject's plain SELECT: it takes no lock. */
  ghost function ReloadStep(b: Base, tx: nat, t: Txn): StepResult
    requires t.job.VerifyJob?
  {
    if t.rows != map[] then
      var id :| id in t.rows;
      AfterCheck(b, tx, t, id, t.rows[id])
    else
      match Find(b, t.job.oid)
      case None => (Released(b, tx), None)
      case Some(id) => AfterCheck(b, tx, t, id, b.objects[id])
  }

  /** INSERT INTO repo_objects ... ON CONFLICT DO NOTHING. */
  function AttachStep(b: Base, tx: nat, t: Txn): StepResult
    requires (t.job.LinkJob? || t.job.VerifyJob?) && t.pc.Attach?
  {
    var l := Link(t.job.repo, t.pc.id);
    if l in b.links then (b, Some(t.(pc := Commit)))
    else if l in b.linkClaims then (b, Some(t))
    else (b.(linkClaims := b.linkClaims[l := tx]), Some(t.(pc := Recount(l.objectId), links := {l})))
  }

  /** The recount in two parts: the subquery counts in the snapshot of the
      statement, and only then the UPDATE waits for the row's lock. */
  function RecountStep(b: Base, tx: nat, t: Txn): StepResult
    requires t.pc.Recount? || t.pc.WriteCount?
  {
    match t.pc
    case Recount(id) => (b, Some(t.(pc := WriteCount(id, |LinksOf(b.links + t.links, id)|))))
    case WriteCount(id, n) =>
      if LockedByOther(b, id, tx) then (b, Some(t))
      else
        match Visible(b, t, id)
        case None => (b, Some(t.(pc := Commit)))
        case Some(row) => (Locked(b, id, tx), Some(t.(pc := Commit, rows := t.rows[id := row.(repoCount := n)])))
  }

  predicate Eligible(job: Job, row: Row) {
    match job
    case OrphanJob(cutoff, _) => Pending(row) && row.createdAt < cutoff
    case UnreferencedJob(_) => !Pending(row) && row.repoCount == 0
    case _ => false
  }

  function Limit(job: Job): int {
    match job
    case OrphanJob(_, limit) => limit
    case UnreferencedJob(limit) => limit
    case _ => 0
  }

  /** SELECT ... FOR UPDATE SKIP LOCKED, one row at a time, then the DELETE. */
  function SelectStep(b: Base, tx: nat, t: Txn, pick: Pick): StepResult
    requires t.pc.Selecting?
  {
    match pick.row
    case None => (b, Some(t.(pc := Commit, gone := t.pc.ids)))
    case Some(id) =>
      if id in b.objects && id !in b.locks && Eligible(t.job, b.objects[id]) && |t.pc.ids| < Limit(t.job)
      then (Locked(b, id, tx), Some(t.(pc := Selecting(t.pc.ids + {id}))))
      else (b, Some(t))
  }

  /** InsertPendingObject is one statement and commits by itself. */
  ghost function InsertPendingStep(b: Base, tx: nat, t: Txn): StepResult
    requires t.job.PendingJob?
  {
    if t.job.oid in b.oidClaims then (b, Some(t))
    else if Find(b, t.job.oid).Some? then (b, None)
    else (WithPending(b, t.job.oid, t.job.now), None)
  }

  function WithPending(b: Base, oid: Oid, now: int): Base {
    b.(objects := b.objects[b.nextId := Row(oid, None, None, 0, now, None)], nextId := b.nextId + 1)
  }

  ghost function TxStep(b: Base, tx: nat, t: Txn, pick: Pick): StepResult {
    match t.pc
    case First =>
      (match t.job
       case LinkJob(_, _, _, _, _) => UpsertStep(b, tx, t)
       case VerifyJob(_, _, _, _, _) => MarkStep(b, tx, t, pick)
       case PendingJob(_, _) => InsertPendingStep(b, tx, t)
       case _ => (b, Some(t.(pc := Selecting({})))))
    case Reload => if t.job.VerifyJob? then ReloadStep(b, tx, t) else (b, Some(t))
    case Attach(_) => if t.job.LinkJob? || t.job.VerifyJob? then AttachStep(b, tx, t) else (b, Some(t))
    case Recount(_) => RecountStep(b, tx, t)
    case WriteCount(_, _) => RecountStep(b, tx, t)
    case Selecting(_) => SelectStep(b, tx, t, pick)
    case Commit => (Committed(b, tx, t), None)
  }

  ghost function SqlNext(s: Sql, e: SqlEvent): Sql {
    match e
    case Start(tx, job) =>
      if tx in s.txns then s else s.(txns := s.txns[tx := Started(job)])
    case Execute(tx, pick) =>
      if tx !in s.txns then s
      else
        var (b, t) := TxStep(s.base, tx, s.txns[tx], pick);
        Sql(b, if t.Some? then s.txns[tx := t.value] else s.txns - {tx})
    case Abort(tx) =>
      if tx !in s.txns then s else Sql(Released(s.base, tx), s.txns - {tx})
  }

  ghost function SqlRun(s: Sql, events: seq<SqlEvent>): Sql
    decreases |events|
  {
    if events == [] then s else SqlRun(SqlNext(s, events[0]), events[1..])
  }

  // ------------------------------------------------------------ the invariant

  predicate Sound(row: Row) {
    !Pending(row) && row.size.Some? && row.uri.Some?
  }

  /** A committed row: a pending one has no links; the count of a verified one
      is between one and the number of its links. */
  predicate CommittedRow(b: Base, id: nat)
    requires id in b.objects
  {
    var row, n := b.objects[id], |LinksOf(b.links, id)|;
    && 1 <= id < b.nextId
    && (if Pending(row) then row.size.None? && row.uri.None? && row.repoCount == 0 && n == 0
        else Sound(row) && row.uri != Some("") && 1 <= row.repoCount <= n)
  }

  predicate BaseOk(b: Base) {
    && 1 <= b.nextId
    && (forall i, j | i in b.objects && j in b.objects :: b.objects[i].oid == b.objects[j].oid ==> i == j)
    && (forall id | id in b.objects :: CommittedRow(b, id))
    && (forall l | l in b.links :: l.objectId in b.objects)
    && (forall id | id in b.objects :: b.objects[id].oid !in b.oidClaims)
    && (forall l | l in b.linkClaims :: l !in b.links)
    && (forall id | id in b.locks :: id < b.nextId)
  }

  predicate Holds(b: Base, tx: nat, id: nat) {
    id in b.locks && b.locks[id] == tx
  }

  /** An uncommitted version of a row: locked, verified, and keeping what a
      committed verified version says; a new one owns its oid. */
  predicate OwnRow(b: Base, tx: nat, id: nat, row: Row) {
    && Holds(b, tx, id) && Sound(row) && 1 <= id < b.nextId
    && (if id in b.objects then
          && b.objects[id].oid == row.oid
          && (!Pending(b.objects[id]) ==> SameFacts(b.objects[id], row))
        else row.oid in b.oidClaims && b.oidClaims[row.oid] == tx)
  }

  /** A row a transaction may link to: its own, or verified for good. */
  predicate Target(b: Base, t: Txn, id: nat) {
    id in t.rows || (id in b.objects && !Pending(b.objects[id]))
  }

  predicate Counted(b: Base, t: Txn, id: nat, n: int) {
    1 <= n <= |LinksOf(b.links + t.links, id)|
  }

  predicate CountUntouched(b: Base, t: Txn) {
    forall id | id in t.rows && id in b.objects :: t.rows[id].repoCount == b.objects[id].repoCount
  }

  /** A row a sweep has locked: it has no link and will have none. */
  predicate Swept(b: Base, tx: nat, id: nat) {
    Holds(b, tx, id) && id in b.objects && Pending(b.objects[id])
  }

  predicate TxnOk(b: Base, tx: nat, t: Txn) {
    && (forall id | id in t.rows :: OwnRow(b, tx, id, t.rows[id]))
    && (forall i, j | i in t.rows && j in t.rows :: i == j)
    && (!t.pc.Reload? ==> forall id | id in t.rows :: t.rows[id].uri != Some(""))
    && (forall l | l in t.links :: l in b.linkClaims && b.linkClaims[l] == tx && Target(b, t, l.objectId))
    && (forall id | id in t.gone :: Swept(b, tx, id))
    && (t.gone != {} ==> t.rows == map[] && t.links == {})
    && (t.job.LinkJob? || t.job.VerifyJob? ==> t.gone == {})
    && match t.pc
       case First => t.rows == map[] && t.links == {} && t.gone == {}
       case Reload =>
         t.job.VerifyJob? && t.links == {} && CountUntouched(b, t) && (forall id | id in t.rows :: t.rows[id].oid == t.job.oid)
       case Attach(id) =>
         (t.job.LinkJob? || t.job.VerifyJob?) && t.links == {} && CountUntouched(b, t) && Target(b, t, id) && t.rows.Keys <= {id}
       case Recount(id) =>
         (t.job.LinkJob? || t.job.VerifyJob?) && t.links == {Link(t.job.repo, id)} && Target(b, t, id) && t.rows.Keys <= {id}
       case WriteCount(id, n) =>
         && (t.job.LinkJob? || t.job.VerifyJob?) && t.links == {Link(t.job.repo, id)} && Target(b, t, id) && t.rows.Keys <= {id}
         && Counted(b, t, id, n)
       case Selecting(ids) => (t.job.OrphanJob? || t.job.UnreferencedJob?) && t.rows == map[] && t.links == {} && t.gone == {} && forall id | id in ids :: Swept(b, tx, id)
       case Commit =>
         && (forall id | id in t.rows :: Counted(b, t, id, t.rows[id].repoCount))
  }

  predicate SqlInv(s: Sql) {
    && BaseOk(s.base)
    && forall tx | tx in s.txns :: TxnOk(s.base, tx, s.txns[tx])
  }

  /** What a step of another transaction leaves alone. */
  ghost predicate Rely(b: Base, b': Base, me: nat) {
    && b.links <= b'.links && b.nextId <= b'.nextId
    && (forall id | id in b.objects && !Pending(b.objects[id]) :: id in b'.objects && SameFacts(b.objects[id], b'.objects[id]))
    && (forall id | Holds(b, me, id) :: Holds(b', me, id))
    && (forall id | Holds(b, me, id) :: id in b.objects <==> id in b'.objects)
    && (forall id | Holds(b, me, id) && id in b.objects :: b'.objects[id] == b.objects[id])
    && (forall oid | oid in b.oidClaims && b.oidClaims[oid] == me :: oid in b'.oidClaims && b'.oidClaims[oid] == me)
    && (forall l | l in b.linkClaims && b.linkClaims[l] == me :: l in b'.linkClaims && b'.linkClaims[l] == me)
  }

  lemma LinksOfGrow(a: set<Link>, c: set<Link>, id: nat)
    requires a <= c
    ensures |LinksOf(a, id)| <= |LinksOf(c, id)|
  {
    SubsetSize(LinksOf(a, id), LinksOf(c, id));
  }

  /** Every transaction is indifferent to what the others do. */
  lemma TxnStays(b: Base, b': Base, tx: nat, t: Txn)
    requires TxnOk(b, tx, t) && Rely(b, b', tx)
    ensures TxnOk(b', tx, t)
  {
    forall id ensures |LinksOf(b.links + t.links, id)| <= |LinksOf(b'.links + t.links, id)| {
      LinksOfGrow(b.links + t.links, b'.links + t.links, id);
    }
    forall id | id in t.rows ensures OwnRow(b', tx, id, t.rows[id]) {
      assert OwnRow(b, tx, id, t.rows[id]);
    }
  }

  // ------------------------------------------------------------ proofs, statement by statement

  /** What a step establishes: the base is kept, the transaction is sound or has
      ended, and nobody else notices. */
  ghost predicate Good(b: Base, tx: nat, r: StepResult) {
    && BaseOk(r.0)
    && (r.1.Some? ==> TxnOk(r.0, tx, r.1.value))
    && forall other | other != tx :: Rely(b, r.0, other)
  }

  lemma Unchanged(b: Base, tx: nat, t: Txn)
    requires BaseOk(b) && TxnOk(b, tx, t)
    ensures Good(b, tx, (b, Some(t)))
  {}

  lemma ReleasedKeeps(b: Base, tx: nat)
    requires BaseOk(b)
    ensures BaseOk(Released(b, tx)) && forall other | other != tx :: Rely(b, Released(b, tx), other)
  {
    var b' := Released(b, tx);
    forall id | id in b'.objects ensures CommittedRow(b', id) {
      assert CommittedRow(b, id);
    }
  }

  lemma LockedKeeps(b: Base, id: nat, tx: nat)
    requires BaseOk(b) && !LockedByOther(b, id, tx) && id < b.nextId
    ensures BaseOk(Locked(b, id, tx)) && forall other | other != tx :: Rely(b, Locked(b, id, tx), other)
  {
    var b' := Locked(b, id, tx);
    forall other | other in b'.objects ensures CommittedRow(b', other) {
      assert CommittedRow(b, other);
    }
  }

  lemma FindUnique(b: Base, oid: Oid, id: nat)
    requires BaseOk(b) && id in b.objects && b.objects[id].oid == oid
    ensures Find(b, oid) == Some(id)
  {
    LookupUnique(Tables(b.objects, b.links, b.nextId), oid, id);
  }

  lemma FindNone(b: Base, oid: Oid)
    requires Find(b, oid).None?
    ensures forall id | id in b.objects :: b.objects[id].oid != oid
  {
    AbsentOid(Tables(b.objects, b.links, b.nextId), oid);
  }

  lemma AfterCheckGood(b0: Base, b: Base, tx: nat, t: Txn, id: nat, row: Row)
    requires (t.job.LinkJob? || t.job.VerifyJob?) && BaseOk(b)
    requires Accepted(row, t.job.size).Ok? ==> TxnOk(b, tx, t.(pc := Attach(id)))
    requires forall other | other != tx :: Rely(b0, b, other)
    ensures Good(b0, tx, AfterCheck(b, tx, t, id, row))
  {
    ReleasedKeeps(b, tx);
    forall other | other != tx ensures Rely(b0, Released(b, tx), other) {
      assert Rely(b0, b, other) && Rely(b, Released(b, tx), other);
    }
  }

  lemma FreshIsFree(b: Base)
    requires BaseOk(b)
    ensures b.nextId !in b.objects && b.nextId !in b.locks
  {
    forall id | id in b.objects ensures id != b.nextId {
      assert CommittedRow(b, id);
    }
  }

  lemma InsertedRowKeeps(b: Base, tx: nat, oid: Oid)
    requires BaseOk(b) && Find(b, oid).None? && oid !in b.oidClaims
    ensures BaseOk(Claimed(b, oid, tx)) && forall other | other != tx :: Rely(b, Claimed(b, oid, tx), other)
  {
    FindNone(b, oid);
    FreshIsFree(b);
    var b' := Claimed(b, oid, tx);
    forall id | id in b'.objects ensures CommittedRow(b', id) {
      assert CommittedRow(b, id);
    }
  }

  lemma InsertedTxnOk(b: Base, tx: nat, t: Txn, t': Txn)
    requires BaseOk(b) && TxnOk(b, tx, t) && t.job.LinkJob? && t.pc.First?
    requires t' == t.(rows := map[b.nextId := NewRow(t.job)], pc := Attach(b.nextId))
    ensures Accepted(NewRow(t.job), t.job.size).Ok? ==> TxnOk(Claimed(b, t.job.oid, tx), tx, t')
  {
    FreshIsFree(b);
  }

  lemma UpsertInsertGood(b: Base, tx: nat, t: Txn)
    requires BaseOk(b) && TxnOk(b, tx, t) && t.job.LinkJob? && t.pc.First?
    requires t.job.oid !in b.oidClaims && Find(b, t.job.oid).None?
    ensures Good(b, tx, AfterCheck(Claimed(b, t.job.oid, tx), tx, t.(rows := map[b.nextId := NewRow(t.job)]), b.nextId, NewRow(t.job)))
  {
    InsertedRowKeeps(b, tx, t.job.oid);
    var t1 := t.(rows := map[b.nextId := NewRow(t.job)]);
    InsertedTxnOk(b, tx, t, t1.(pc := Attach(b.nextId)));
    AfterCheckGood(b, Claimed(b, t.job.oid, tx), tx, t1, b.nextId, NewRow(t.job));
  }

  lemma UpsertUpdateGood(b: Base, tx: nat, t: Txn, id: nat)
    requires BaseOk(b) && TxnOk(b, tx, t) && t.job.LinkJob? && t.pc.First?
    requires t.job.oid !in b.oidClaims && Find(b, t.job.oid) == Some(id) && !LockedByOther(b, id, tx)
    ensures Good(b, tx, UpsertStep(b, tx, t))
  {
    LockedKeeps(b, id, tx);
    assert CommittedRow(b, id);
    var row := Coalesced(b.objects[id], t.job.size, t.job.uri, t.job.now);
    AfterCheckGood(b, Locked(b, id, tx), tx, t.(rows := map[id := row]), id, row);
  }

  lemma UpsertGood(b: Base, tx: nat, t: Txn)
    requires BaseOk(b) && TxnOk(b, tx, t) && t.job.LinkJob? && t.pc.First?
    ensures Good(b, tx, UpsertStep(b, tx, t))
  {
    if t.job.oid !in b.oidClaims {
      match Find(b, t.job.oid)
      case None => UpsertInsertGood(b, tx, t);
      case Some(id) => if !LockedByOther(b, id, tx) { UpsertUpdateGood(b, tx, t, id); }
    }
  }

  lemma MarkGood(b: Base, tx: nat, t: Txn, pick: Pick)
    requires BaseOk(b) && TxnOk(b, tx, t) && t.job.VerifyJob? && t.pc.First?
    ensures Good(b, tx, MarkStep(b, tx, t, pick))
  {
    match Find(b, t.job.oid)
    case None =>
    case Some(id) =>
      if !pick.skip && Pending(b.objects[id]) && !LockedByOther(b, id, tx) {
        LockedKeeps(b, id, tx);
        assert CommittedRow(b, id);
      }
  }

  lemma ReloadGood(b: Base, tx: nat, t: Txn)
    requires BaseOk(b) && TxnOk(b, tx, t) && t.job.VerifyJob? && t.pc.Reload?
    ensures Good(b, tx, ReloadStep(b, tx, t))
  {
    ReleasedKeeps(b, tx);
    if t.rows != map[] {
      var id :| id in t.rows;
      assert t.rows.Keys <= {id};
      AfterCheckGood(b, b, tx, t, id, t.rows[id]);
    } else if Find(b, t.job.oid).Some? {
      var id := Find(b, t.job.oid).value;
      assert CommittedRow(b, id);
      if !Pending(b.objects[id]) {
        AfterCheckGood(b, b, tx, t, id, b.objects[id]);
      }
    }
  }

  lemma AlreadyLinked(b: Base, tx: nat, t: Txn)
    requires BaseOk(b) && TxnOk(b, tx, t) && t.pc.Attach? && Link(t.job.repo, t.pc.id) in b.links
    ensures TxnOk(b, tx, t.(pc := Commit))
  {
    assert Link(t.job.repo, t.pc.id) in LinksOf(b.links, t.pc.id);
    assert b.links + t.links == b.links;
    forall id | id in t.rows ensures Counted(b, t, id, t.rows[id].repoCount) {
      assert OwnRow(b, tx, id, t.rows[id]) && CommittedRow(b, id);
    }
  }

  lemma ClaimKeeps(b: Base, tx: nat, l: Link)
    requires BaseOk(b) && l !in b.links && l !in b.linkClaims
    ensures var b' := b.(linkClaims := b.linkClaims[l := tx]);
            BaseOk(b') && forall other | other != tx :: Rely(b, b', other)
  {
    var b' := b.(linkClaims := b.linkClaims[l := tx]);
    forall id | id in b'.objects ensures CommittedRow(b', id) {
      assert CommittedRow(b, id);
    }
  }

  lemma ClaimTxnOk(b: Base, tx: nat, t: Txn, l: Link)
    requires TxnOk(b, tx, t) && t.pc.Attach? && l == Link(t.job.repo, t.pc.id) && l !in b.linkClaims
    ensures TxnOk(b.(linkClaims := b.linkClaims[l := tx]), tx, t.(pc := Recount(l.objectId), links := {l}))
  {
    var b' := b.(linkClaims := b.linkClaims[l := tx]);
    forall id | id in t.rows ensures OwnRow(b', tx, id, t.rows[id]) {
      assert OwnRow(b, tx, id, t.rows[id]);
    }
  }

  lemma AttachGood(b: Base, tx: nat, t: Txn)
    requires BaseOk(b) && TxnOk(b, tx, t) && t.pc.Attach?
    ensures Good(b, tx, AttachStep(b, tx, t))
  {
    var l := Link(t.job.repo, t.pc.id);
    if l in b.links {
      AlreadyLinked(b, tx, t);
      Unchanged(b, tx, t.(pc := Commit));
    } else if l in b.linkClaims {
      Unchanged(b, tx, t);
    } else {
      ClaimKeeps(b, tx, l);
      ClaimTxnOk(b, tx, t, l);
    }
  }

  lemma OwnLinkCounts(b: Base, tx: nat, t: Txn, id: nat)
    requires BaseOk(b) && TxnOk(b, tx, t) && t.pc == Recount(id)
    ensures Counted(b, t, id, |LinksOf(b.links + t.links, id)|)
  {
    var l := Link(t.job.repo, id);
    assert l in LinksOf(b.links + t.links, id);
  }

  lemma RecountGood(b: Base, tx: nat, t: Txn)
    requires BaseOk(b) && TxnOk(b, tx, t) && t.pc.Recount?
    ensures Good(b, tx, RecountStep(b, tx, t))
  {
    OwnLinkCounts(b, tx, t, t.pc.id);
    Unchanged(b, tx, t.(pc := WriteCount(t.pc.id, |LinksOf(b.links + t.links, t.pc.id)|)));
  }

  /** The row a recount writes exists: it is the transaction's own, or verified. */
  lemma WriteCountTxnOk(b: Base, tx: nat, t: Txn, row: Row)
    requires BaseOk(b) && TxnOk(b, tx, t) && t.pc.WriteCount? && !LockedByOther(b, t.pc.id, tx)
    requires Visible(b, t, t.pc.id) == Some(row)
    ensures TxnOk(Locked(b, t.pc.id, tx), tx, t.(pc := Commit, rows := t.rows[t.pc.id := row.(repoCount := t.pc.n)]))
  {
    var id := t.pc.id;
    if id in b.objects {
      assert CommittedRow(b, id);
    }
    if id in t.rows {
      assert OwnRow(b, tx, id, t.rows[id]);
    }
  }

  lemma WriteCountGood(b: Base, tx: nat, t: Txn)
    requires BaseOk(b) && TxnOk(b, tx, t) && t.pc.WriteCount?
    ensures Good(b, tx, RecountStep(b, tx, t))
  {
    var id := t.pc.id;
    if LockedByOther(b, id, tx) {
      Unchanged(b, tx, t);
    } else {
      assert Visible(b, t, id).Some?;
      if id in b.objects { assert CommittedRow(b, id); }
      LockedKeeps(b, id, tx);
      WriteCountTxnOk(b, tx, t, Visible(b, t, id).value);
    }
  }

  lemma PickedTxnOk(b: Base, tx: nat, t: Txn, id: nat)
    requires BaseOk(b) && TxnOk(b, tx, t) && t.pc.Selecting? && id in b.objects && Eligible(t.job, b.objects[id])
    ensures TxnOk(Locked(b, id, tx), tx, t.(pc := Selecting(t.pc.ids + {id})))
  {
    assert CommittedRow(b, id);
  }

  lemma SelectGood(b: Base, tx: nat, t: Txn, pick: Pick)
    requires BaseOk(b) && TxnOk(b, tx, t) && t.pc.Selecting?
    ensures Good(b, tx, SelectStep(b, tx, t, pick))
  {
    if pick.row.None? {
      Unchanged(b, tx, t.(pc := Commit, gone := t.pc.ids));
    } else if SelectStep(b, tx, t, pick) == (b, Some(t)) {
      Unchanged(b, tx, t);
    } else {
      var id := pick.row.value;
      assert CommittedRow(b, id);
      LockedKeeps(b, id, tx);
      PickedTxnOk(b, tx, t, id);
    }
  }

  lemma NoLinksYet(b: Base)
    requires BaseOk(b)
    ensures LinksOf(b.links, b.nextId) == {}
  {
    FreshIsFree(b);
  }

  lemma PendingRowKeeps(b: Base, oid: Oid, now: int, tx: nat)
    requires BaseOk(b) && oid !in b.oidClaims && Find(b, oid).None?
    ensures BaseOk(WithPending(b, oid, now)) && forall other | other != tx :: Rely(b, WithPending(b, oid, now), other)
  {
    var b' := WithPending(b, oid, now);
    FindNone(b, oid);
    FreshIsFree(b);
    NoLinksYet(b);
    forall id | id in b'.objects ensures CommittedRow(b', id) {
      if id in b.objects { assert CommittedRow(b, id); }
    }
  }

  lemma InsertPendingGood(b: Base, tx: nat, t: Txn)
    requires BaseOk(b) && TxnOk(b, tx, t) && t.job.PendingJob? && t.pc.First?
    ensures Good(b, tx, InsertPendingStep(b, tx, t))
  {
    if t.job.oid !in b.oidClaims && Find(b, t.job.oid).None? {
      PendingRowKeeps(b, t.job.oid, t.job.now, tx);
    }
  }

  // ------------------------------------------------------------ commit

  lemma CommittedRowAt(b: Base, tx: nat, t: Txn, id: nat)
    requires BaseOk(b) && TxnOk(b, tx, t) && t.pc.Commit? && id in Committed(b, tx, t).objects
    ensures CommittedRow(Committed(b, tx, t), id)
  {
    var b' := Committed(b, tx, t);
    if id in t.rows {
      assert OwnRow(b, tx, id, t.rows[id]) && Counted(b, t, id, t.rows[id].repoCount);
    } else {
      assert CommittedRow(b, id);
      LinksOfGrow(b.links, b'.links, id);
      if Pending(b.objects[id]) {
        assert forall l | l in t.links :: l.objectId != id;
        assert LinksOf(b'.links, id) == LinksOf(b.links, id);
      }
    }
  }

  /** No deleted row has a link, and no new link goes to a deleted row. */
  lemma CommitNeverDangles(b: Base, tx: nat, t: Txn)
    requires BaseOk(b) && TxnOk(b, tx, t) && t.pc.Commit?
    ensures forall l | l in Committed(b, tx, t).links :: l.objectId in Committed(b, tx, t).objects
    ensures forall id | id in t.gone :: id in b.objects && Pending(b.objects[id]) && LinksOf(b.links, id) == {}
  {
    forall id | id in t.gone ensures id in b.objects && Pending(b.objects[id]) && LinksOf(b.links, id) == {} {
      assert Swept(b, tx, id) && CommittedRow(b, id);
    }
    forall l | l in b.links ensures l.objectId !in t.gone {
      assert l in LinksOf(b.links, l.objectId);
    }
  }

  lemma CommitKeepsOids(b: Base, tx: nat, t: Txn)
    requires BaseOk(b) && TxnOk(b, tx, t) && t.pc.Commit?
    ensures var b' := Committed(b, tx, t);
            && (forall i, j | i in b'.objects && j in b'.objects :: b'.objects[i].oid == b'.objects[j].oid ==> i == j)
            && (forall id | id in b'.objects :: b'.objects[id].oid !in b'.oidClaims)
  {
    var b' := Committed(b, tx, t);
    forall id | id in t.rows ensures OwnRow(b, tx, id, t.rows[id]) {}
  }

  /** A commit writes and deletes only rows its transaction has locked. */
  lemma CommitTouchesOwn(b: Base, tx: nat, t: Txn, id: nat)
    requires TxnOk(b, tx, t) && !Holds(b, tx, id)
    ensures id !in t.rows && id !in t.gone
  {}

  lemma CommitKeepsVerified(b: Base, tx: nat, t: Txn, id: nat)
    requires TxnOk(b, tx, t) && id in b.objects && !Pending(b.objects[id])
    ensures id in Committed(b, tx, t).objects && SameFacts(b.objects[id], Committed(b, tx, t).objects[id])
  {
    assert id !in t.gone;
    if id in t.rows { assert OwnRow(b, tx, id, t.rows[id]); }
  }

  lemma CommitRelies(b: Base, tx: nat, t: Txn, other: nat)
    requires TxnOk(b, tx, t) && other != tx
    ensures Rely(b, Committed(b, tx, t), other)
  {
    var b' := Committed(b, tx, t);
    forall id | Holds(b, other, id)
      ensures Holds(b', other, id) && (id in b.objects <==> id in b'.objects)
      ensures id in b.objects ==> b'.objects[id] == b.objects[id]
    {
      CommitTouchesOwn(b, tx, t, id);
    }
    forall id | id in b.objects && !Pending(b.objects[id])
      ensures id in b'.objects && SameFacts(b.objects[id], b'.objects[id])
    {
      CommitKeepsVerified(b, tx, t, id);
    }
  }

  lemma CommitGood(b: Base, tx: nat, t: Txn)
    requires BaseOk(b) && TxnOk(b, tx, t) && t.pc.Commit?
    ensures Good(b, tx, (Committed(b, tx, t), None))
  {
    var b' := Committed(b, tx, t);
    forall id | id in b'.objects ensures CommittedRow(b', id) { CommittedRowAt(b, tx, t, id); }
    CommitNeverDangles(b, tx, t);
    CommitKeepsOids(b, tx, t);
    forall other | other != tx ensures Rely(b, b', other) { CommitRelies(b, tx, t, other); }
  }

  // ------------------------------------------------------------ every run

  lemma StepGood(b: Base, tx: nat, t: Txn, pick: Pick)
    requires BaseOk(b) && TxnOk(b, tx, t)
    ensures Good(b, tx, TxStep(b, tx, t, pick))
  {
    match t.pc
    case First =>
      match t.job {
        case LinkJob(_, _, _, _, _) => UpsertGood(b, tx, t);
        case VerifyJob(_, _, _, _, _) => MarkGood(b, tx, t, pick);
        case PendingJob(_, _) => InsertPendingGood(b, tx, t);
        case _ => Unchanged(b, tx, t.(pc := Selecting({})));
      }
    case Reload => ReloadGood(b, tx, t);
    case Attach(_) => AttachGood(b, tx, t);
    case Recount(_) => RecountGood(b, tx, t);
    case WriteCount(_, _) => WriteCountGood(b, tx, t);
    case Selecting(_) => SelectGood(b, tx, t, pick);
    case Commit => CommitGood(b, tx, t);
  }

  lemma OthersStay(s: Sql, b: Base, tx: nat)
    requires SqlInv(s) && forall other | other != tx :: Rely(s.base, b, other)
    ensures forall other | other in s.txns && other != tx :: TxnOk(b, other, s.txns[other])
  {
    forall other | other in s.txns && other != tx ensures TxnOk(b, other, s.txns[other]) {
      TxnStays(s.base, b, other, s.txns[other]);
    }
  }

  lemma SqlNextKeeps(s: Sql, e: SqlEvent)
    requires SqlInv(s)
    ensures SqlInv(SqlNext(s, e))
  {
    match e
    case Start(_, _) =>
    case Execute(tx, pick) =>
      if tx in s.txns {
        StepGood(s.base, tx, s.txns[tx], pick);
        OthersStay(s, TxStep(s.base, tx, s.txns[tx], pick).0, tx);
      }
    case Abort(tx) =>
      ReleasedKeeps(s.base, tx);
      OthersStay(s, Released(s.base, tx), tx);
  }

  lemma {:induction false} SqlRunKeeps(s: Sql, events: seq<SqlEvent>)
    requires SqlInv(s)
    ensures SqlInv(SqlRun(s, events))
    decreases |events|
  {
    if events != [] {
      SqlNextKeeps(s, events[0]);
      SqlRunKeeps(SqlNext(s, events[0]), events[1..]);
    }
  }
}
