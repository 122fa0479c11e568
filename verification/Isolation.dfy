/** What the statement-level runs guarantee, where they fall short of the
    atomic transactions, and that they agree with them when undisturbed. */
module Isolation {
  import opened Wrappers
  import opened Uris
  import opened Tables
  import opened Statements

  lemma RunFromEmpty(events: seq<SqlEvent>)
    ensures SqlInv(SqlRun(SQL_EMPTY, events))
  {
    SqlRunKeeps(SQL_EMPTY, events);
  }

  // ------------------------------------------------------------ guarantees

  /** In every reachable state, of any number of transactions at any statement:
      the count of a committed verified row is between one and the number of its
      links, pending rows have none, and no committed link dangles. */
  lemma CountsAreBounded(events: seq<SqlEvent>)
    ensures var b := SqlRun(SQL_EMPTY, events).base;
            && (forall id | id in b.objects && !Pending(b.objects[id]) :: 1 <= b.objects[id].repoCount <= |LinksOf(b.links, id)|)
            && (forall id | id in b.objects && Pending(b.objects[id]) :: b.objects[id].repoCount == 0 && LinksOf(b.links, id) == {})
            && (forall l | l in b.links :: l.objectId in b.objects)
  {
    RunFromEmpty(events);
    var b := SqlRun(SQL_EMPTY, events).base;
    forall id | id in b.objects
      ensures if Pending(b.objects[id]) then b.objects[id].repoCount == 0 && LinksOf(b.links, id) == {}
              else 1 <= b.objects[id].repoCount <= |LinksOf(b.links, id)|
    {
      assert CommittedRow(b, id);
    }
  }

  /** A sweep about to commit deletes no row that has a link, committed or in
      the hands of any transaction in progress; and what it deletes is pending. */
  lemma SweepsSpareLinkedRows(events: seq<SqlEvent>, tx: nat, id: nat)
    requires var s := SqlRun(SQL_EMPTY, events);
             tx in s.txns && s.txns[tx].pc.Commit? && id in s.txns[tx].gone
    ensures var s := SqlRun(SQL_EMPTY, events);
            && id in s.base.objects && Pending(s.base.objects[id])
            && LinksOf(s.base.links, id) == {}
            && forall other | other in s.txns :: LinksOf(s.txns[other].links, id) == {}
  {
    RunFromEmpty(events);
    var s := SqlRun(SQL_EMPTY, events);
    assert TxnOk(s.base, tx, s.txns[tx]);
    CommitNeverDangles(s.base, tx, s.txns[tx]);
    assert Swept(s.base, tx, id);
    forall other, l | other in s.txns && l in s.txns[other].links ensures l.objectId != id {
      assert TxnOk(s.base, other, s.txns[other]);
      assert Target(s.base, s.txns[other], l.objectId);
      if other != tx && id in s.txns[other].rows {
        assert OwnRow(s.base, other, id, s.txns[other].rows[id]);
      }
    }
  }

  /** Oid, size, URI and times of a committed verified row are write-once. */
  lemma StepKeepsVerified(s: Sql, e: SqlEvent, id: nat)
    requires SqlInv(s) && id in s.base.objects && !Pending(s.base.objects[id])
    ensures id in SqlNext(s, e).base.objects && SameFacts(s.base.objects[id], SqlNext(s, e).base.objects[id])
  {
    match e
    case Start(_, _) =>
    case Abort(_) =>
    case Execute(tx, pick) =>
      if tx in s.txns {
        StepGood(s.base, tx, s.txns[tx], pick);
        assert Rely(s.base, SqlNext(s, e).base, tx + 1);
      }
  }

  lemma {:induction false} CommittedIsWriteOnce(s: Sql, events: seq<SqlEvent>, id: nat)
    requires SqlInv(s) && id in s.base.objects && !Pending(s.base.objects[id])
    ensures id in SqlRun(s, events).base.objects
    ensures SameFacts(s.base.objects[id], SqlRun(s, events).base.objects[id])
    decreases |events|
  {
    if events != [] {
      StepKeepsVerified(s, events[0], id);
      SqlNextKeeps(s, events[0]);
      CommittedIsWriteOnce(SqlNext(s, events[0]), events[1..], id);
    }
  }

  // ------------------------------------------------------------ when counts are exact

  predicate ExactBase(b: Base) {
    forall id | id in b.objects :: b.objects[id].repoCount == |LinksOf(b.links, id)|
  }

  /** A commit that writes a count other than the number of links it leaves, or
      adds a link without a count. */
  predicate Stale(b: Base, t: Txn) {
    || (exists id :: id in t.rows && t.rows[id].repoCount != |LinksOf(b.links + t.links, id)|)
    || (exists l :: l in t.links && l.objectId !in t.rows)
  }

  predicate CommitsStale(s: Sql, e: SqlEvent) {
    e.Execute? && e.tx in s.txns && s.txns[e.tx].pc.Commit? && Stale(s.base, s.txns[e.tx])
  }

  lemma CommitIsExactIff(b: Base, tx: nat, t: Txn)
    requires BaseOk(b) && TxnOk(b, tx, t) && t.pc.Commit? && ExactBase(b)
    ensures ExactBase(Committed(b, tx, t)) <==> !Stale(b, t)
  {
    var b' := Committed(b, tx, t);
    forall id | id in t.rows ensures id in b'.objects && b'.objects[id] == t.rows[id] {
      assert id !in t.gone;
    }
    if l :| l in t.links && l.objectId !in t.rows {
      UncountedLink(b, tx, t, l);
    } else {
      forall id | id in b'.objects && id !in t.rows ensures b'.objects[id].repoCount == |LinksOf(b'.links, id)| {
        assert LinksOf(b'.links, id) == LinksOf(b.links, id);
      }
    }
  }

  lemma UncountedLink(b: Base, tx: nat, t: Txn, l: Link)
    requires BaseOk(b) && TxnOk(b, tx, t) && ExactBase(b) && l in t.links && l.objectId !in t.rows
    ensures var b' := Committed(b, tx, t);
            l.objectId in b'.objects && b'.objects[l.objectId].repoCount != |LinksOf(b'.links, l.objectId)|
  {
    assert Target(b, t, l.objectId) && l !in b.links;
    MoreLinks(b.links, t.links, l);
  }

  lemma MoreLinks(links: set<Link>, added: set<Link>, l: Link)
    requires l in added && l !in links
    ensures |LinksOf(links, l.objectId)| < |LinksOf(links + added, l.objectId)|
  {
    var narrow, wide := LinksOf(links, l.objectId), LinksOf(links + added, l.objectId);
    assert narrow + {l} <= wide;
    SubsetSize(narrow + {l}, wide);
  }

  lemma PendingIsExact(b: Base, oid: Oid, now: int)
    requires BaseOk(b) && ExactBase(b)
    ensures ExactBase(WithPending(b, oid, now))
  {
    NoLinksYet(b);
  }

  /** Only a commit, or the pending insert, changes what is committed. */
  lemma OtherStepsKeepCommitted(b: Base, tx: nat, t: Txn, pick: Pick)
    requires !t.pc.Commit? && !(t.pc.First? && t.job.PendingJob?)
    ensures TxStep(b, tx, t, pick).0.objects == b.objects && TxStep(b, tx, t, pick).0.links == b.links
  {
    if t.pc.First? && t.job.LinkJob? {
      assert TxStep(b, tx, t, pick) == UpsertStep(b, tx, t);
    } else if t.pc.First? && t.job.VerifyJob? {
      assert TxStep(b, tx, t, pick) == MarkStep(b, tx, t, pick);
    }
  }

  /** One statement, from any state a run can reach: the committed counts stay
      exact exactly if it is not a stale commit, which can be seen before it. */
  lemma CountsStayExactIff(s: Sql, e: SqlEvent)
    requires SqlInv(s) && ExactBase(s.base)
    ensures ExactBase(SqlNext(s, e).base) <==> !CommitsStale(s, e)
  {
    match e
    case Start(_, _) =>
    case Abort(_) =>
    case Execute(tx, pick) =>
      if tx in s.txns {
        var t := s.txns[tx];
        assert TxnOk(s.base, tx, t);
        if t.pc.Commit? {
          CommitIsExactIff(s.base, tx, t);
        } else if t.pc.First? && t.job.PendingJob? {
          PendingIsExact(s.base, t.job.oid, t.job.now);
        } else {
          OtherStepsKeepCommitted(s.base, tx, t, pick);
        }
      }
  }

  ghost predicate AlwaysExact(s: Sql, events: seq<SqlEvent>)
    decreases |events|
  {
    ExactBase(s.base) && (events == [] || AlwaysExact(SqlNext(s, events[0]), events[1..]))
  }

  ghost predicate NeverStale(s: Sql, events: seq<SqlEvent>)
    decreases |events|
  {
    events == [] || (!CommitsStale(s, events[0]) && NeverStale(SqlNext(s, events[0]), events[1..]))
  }

  lemma {:induction false} ExactIffNeverStale(s: Sql, events: seq<SqlEvent>)
    requires SqlInv(s) && ExactBase(s.base)
    ensures AlwaysExact(s, events) <==> NeverStale(s, events)
    decreases |events|
  {
    if events != [] {
      SqlNextKeeps(s, events[0]);
      CountsStayExactIff(s, events[0]);
      if !CommitsStale(s, events[0]) {
        ExactIffNeverStale(SqlNext(s, events[0]), events[1..]);
      }
    }
  }

  // ------------------------------------------------------------ where staleness comes from

  /** What a transaction has counted is still right. */
  predicate FreshTxn(b: Base, t: Txn) {
    match t.pc
    case Commit => !Stale(b, t)
    case WriteCount(id, n) => n == |LinksOf(b.links + t.links, id)|
    case Recount(_) => true
    case _ => forall id | id in t.rows :: t.rows[id].repoCount == |LinksOf(b.links, id)|
  }

  predicate Fresh(s: Sql) {
    ExactBase(s.base) && forall tx | tx in s.txns :: FreshTxn(s.base, s.txns[tx])
  }

  /** A new link of tx goes to a row that another transaction has counted and
      not yet written. */
  predicate Overtaken(s: Sql, tx: nat, other: nat)
    requires tx in s.txns
  {
    && other in s.txns && other != tx && s.txns[other].pc.WriteCount?
    && exists l :: l in s.txns[tx].links && l.objectId == s.txns[other].pc.id
  }

  /** A commit that overtakes a count. */
  predicate Overtakes(s: Sql, e: SqlEvent) {
    && e.Execute? && e.tx in s.txns && s.txns[e.tx].pc.Commit?
    && exists other :: other in s.txns && Overtaken(s, e.tx, other)
  }

  lemma OvertakenIsStale(s: Sql, tx: nat, other: nat)
    requires SqlInv(s) && tx in s.txns && Overtaken(s, tx, other) && FreshTxn(s.base, s.txns[other])
    ensures !FreshTxn(Committed(s.base, tx, s.txns[tx]), s.txns[other])
  {
    var b, t, u := s.base, s.txns[tx], s.txns[other];
    var l :| l in t.links && l.objectId == u.pc.id;
    assert TxnOk(b, tx, t) && TxnOk(b, other, u);
    assert l !in b.links + u.links;
    MoreLinks(b.links + u.links, t.links, l);
    assert b.links + u.links + t.links == b.links + t.links + u.links;
  }

  /** A count that was overtaken never becomes right again. */
  lemma StaleStays(b: Base, b': Base, other: nat, u: Txn)
    requires TxnOk(b, other, u) && (u.pc.WriteCount? || u.pc.Commit?) && !FreshTxn(b, u) && b.links <= b'.links
    ensures !FreshTxn(b', u)
  {
    forall id ensures |LinksOf(b.links + u.links, id)| <= |LinksOf(b'.links + u.links, id)| {
      LinksOfGrow(b.links + u.links, b'.links + u.links, id);
    }
    if u.pc.Commit? && exists id :: id in u.rows && u.rows[id].repoCount != |LinksOf(b.links + u.links, id)| {
      var id :| id in u.rows && u.rows[id].repoCount != |LinksOf(b.links + u.links, id)|;
      assert Counted(b, u, id, u.rows[id].repoCount);
      assert u.rows[id].repoCount != |LinksOf(b'.links + u.links, id)|;
    }
  }

  /** Links to rows that are neither locked nor counted by another transaction
      do not disturb it. */
  lemma OthersStayFresh(b: Base, tx: nat, t: Txn, other: nat, u: Txn)
    requires TxnOk(b, tx, t) && TxnOk(b, other, u) && other != tx && t.pc.Commit? && FreshTxn(b, t) && FreshTxn(b, u)
    requires u.pc.WriteCount? ==> forall l | l in t.links :: l.objectId != u.pc.id
    ensures FreshTxn(Committed(b, tx, t), u)
  {
    var b' := Committed(b, tx, t);
    forall id | (forall l | l in t.links :: l.objectId != id)
      ensures LinksOf(b'.links, id) == LinksOf(b.links, id) && LinksOf(b'.links + u.links, id) == LinksOf(b.links + u.links, id)
    {}
    forall id | id in u.rows ensures forall l | l in t.links :: l.objectId != id {
      assert OwnRow(b, other, id, u.rows[id]);
      forall l | l in t.links ensures l.objectId != id {
        assert OwnRow(b, tx, l.objectId, t.rows[l.objectId]);
      }
    }
  }

  lemma CommitNext(s: Sql, tx: nat, pick: Pick)
    requires tx in s.txns && s.txns[tx].pc.Commit?
    ensures SqlNext(s, Execute(tx, pick)) == Sql(Committed(s.base, tx, s.txns[tx]), s.txns - {tx})
  {}

  /** A commit of right counts leaves another right count right exactly if it
      does not overtake it. */
  lemma CommitStaysFreshIff(s: Sql, tx: nat, other: nat)
    requires SqlInv(s) && tx in s.txns && s.txns[tx].pc.Commit? && FreshTxn(s.base, s.txns[tx])
    requires other in s.txns && other != tx && FreshTxn(s.base, s.txns[other])
    ensures FreshTxn(Committed(s.base, tx, s.txns[tx]), s.txns[other]) <==> !Overtaken(s, tx, other)
  {
    assert TxnOk(s.base, tx, s.txns[tx]) && TxnOk(s.base, other, s.txns[other]);
    if Overtaken(s, tx, other) {
      OvertakenIsStale(s, tx, other);
    } else {
      OthersStayFresh(s.base, tx, s.txns[tx], other, s.txns[other]);
    }
  }

  lemma UpsertIsFresh(b: Base, tx: nat, t: Txn)
    requires BaseOk(b) && TxnOk(b, tx, t) && t.job.LinkJob? && t.pc.First? && ExactBase(b)
    ensures var r := UpsertStep(b, tx, t); r.1.Some? ==> FreshTxn(r.0, r.1.value)
  {
    NoLinksYet(b);
  }

  lemma AttachIsFresh(b: Base, tx: nat, t: Txn)
    requires TxnOk(b, tx, t) && t.pc.Attach? && FreshTxn(b, t)
    ensures var r := AttachStep(b, tx, t); r.1.Some? ==> FreshTxn(r.0, r.1.value)
  {
    assert b.links + t.links == b.links;
  }

  lemma RecountIsFresh(b: Base, tx: nat, t: Txn)
    requires TxnOk(b, tx, t) && (t.pc.Recount? || t.pc.WriteCount?) && FreshTxn(b, t)
    ensures var r := RecountStep(b, tx, t); r.1.Some? ==> FreshTxn(r.0, r.1.value)
  {}

  lemma VerifyIsFresh(b: Base, tx: nat, t: Txn, pick: Pick)
    requires TxnOk(b, tx, t) && t.job.VerifyJob? && (t.pc.First? || t.pc.Reload?) && FreshTxn(b, t) && ExactBase(b)
    ensures var r := TxStep(b, tx, t, pick); r.1.Some? ==> FreshTxn(r.0, r.1.value)
  {}

  lemma StepIsFresh(b: Base, tx: nat, t: Txn, pick: Pick)
    requires BaseOk(b) && TxnOk(b, tx, t) && !t.pc.Commit? && ExactBase(b) && FreshTxn(b, t)
    ensures var r := TxStep(b, tx, t, pick); r.1.Some? ==> FreshTxn(r.0, r.1.value)
  {
    match t.pc
    case Attach(_) => AttachIsFresh(b, tx, t);
    case Recount(_) => RecountIsFresh(b, tx, t);
    case WriteCount(_, _) => RecountIsFresh(b, tx, t);
    case Selecting(_) =>
    case Reload => VerifyIsFresh(b, tx, t, pick);
    case First =>
      if t.job.LinkJob? {
        UpsertIsFresh(b, tx, t);
      } else if t.job.VerifyJob? {
        VerifyIsFresh(b, tx, t, pick);
      }
  }

  lemma StepKeepsLinks(b: Base, tx: nat, t: Txn, pick: Pick)
    requires !t.pc.Commit?
    ensures TxStep(b, tx, t, pick).0.links == b.links
  {}

  // ------------------------------------------------------------ exactly which schedules

  /** The transactions that are behind: their count was overtaken, by the commit
      of a link to the row they have counted, and they have not ended since. */
  function BehindNext(s: Sql, behind: set<nat>, e: SqlEvent): set<nat> {
    match e
    case Start(_, _) => behind
    case Abort(tx) => behind - {tx}
    case Execute(tx, _) =>
      if tx in s.txns && s.txns[tx].pc.Commit? then behind + (set other | other in s.txns && Overtaken(s, tx, other)) - {tx} else behind
  }

  predicate CommitsBehind(s: Sql, behind: set<nat>, e: SqlEvent) {
    e.Execute? && e.tx in s.txns && s.txns[e.tx].pc.Commit? && e.tx in behind
  }

  ghost predicate NoneBehindCommits(s: Sql, behind: set<nat>, events: seq<SqlEvent>)
    decreases |events|
  {
    events == [] || (!CommitsBehind(s, behind, events[0]) && NoneBehindCommits(SqlNext(s, events[0]), BehindNext(s, behind, events[0]), events[1..]))
  }

  /** Those behind are the ones whose count is no longer right, and they are about
      to write it or to commit it. */
  predicate TracksTxn(b: Base, behind: set<nat>, tx: nat, t: Txn) {
    && (tx in behind <==> !FreshTxn(b, t))
    && (tx in behind ==> t.pc.WriteCount? || t.pc.Commit?)
  }

  predicate Tracks(s: Sql, behind: set<nat>) {
    behind <= s.txns.Keys && forall tx | tx in s.txns :: TracksTxn(s.base, behind, tx, s.txns[tx])
  }

  lemma CommitTracks(s: Sql, behind: set<nat>, tx: nat, pick: Pick)
    requires SqlInv(s) && Tracks(s, behind) && tx in s.txns && s.txns[tx].pc.Commit? && tx !in behind
    ensures Tracks(SqlNext(s, Execute(tx, pick)), BehindNext(s, behind, Execute(tx, pick)))
  {
    var b', behind' := Committed(s.base, tx, s.txns[tx]), BehindNext(s, behind, Execute(tx, pick));
    CommitNext(s, tx, pick);
    assert TracksTxn(s.base, behind, tx, s.txns[tx]);
    forall other | other in s.txns && other != tx ensures TracksTxn(b', behind', other, s.txns[other]) {
      assert TxnOk(s.base, other, s.txns[other]) && TracksTxn(s.base, behind, other, s.txns[other]);
      if other in behind {
        StaleStays(s.base, b', other, s.txns[other]);
      } else {
        CommitStaysFreshIff(s, tx, other);
      }
    }
  }

  /** A wrong count is written as it is. */
  lemma StaleStep(b: Base, tx: nat, t: Txn, pick: Pick)
    requires TxnOk(b, tx, t) && t.pc.WriteCount? && !FreshTxn(b, t)
    ensures var r := TxStep(b, tx, t, pick);
            r.1.Some? && !FreshTxn(r.0, r.1.value) && (r.1.value.pc.WriteCount? || r.1.value.pc.Commit?)
  {
    var r := TxStep(b, tx, t, pick);
    if r.1.value.pc.Commit? {
      assert t.pc.id in r.1.value.rows && r.1.value.rows[t.pc.id].repoCount == t.pc.n;
    }
  }

  lemma OthersTrack(s: Sql, behind: set<nat>, b: Base, tx: nat)
    requires Tracks(s, behind) && b.links == s.base.links
    ensures forall other | other in s.txns && other != tx :: TracksTxn(b, behind, other, s.txns[other])
  {
    forall other | other in s.txns && other != tx ensures TracksTxn(b, behind, other, s.txns[other]) {
      assert TracksTxn(s.base, behind, other, s.txns[other]);
    }
  }

  lemma StepTracks(s: Sql, behind: set<nat>, tx: nat, pick: Pick)
    requires SqlInv(s) && ExactBase(s.base) && Tracks(s, behind) && tx in s.txns && !s.txns[tx].pc.Commit?
    ensures Tracks(SqlNext(s, Execute(tx, pick)), behind)
  {
    var t := s.txns[tx];
    var r := TxStep(s.base, tx, t, pick);
    assert TxnOk(s.base, tx, t) && TracksTxn(s.base, behind, tx, t);
    StepKeepsLinks(s.base, tx, t, pick);
    OthersTrack(s, behind, r.0, tx);
    if tx in behind {
      StaleStep(s.base, tx, t, pick);
    } else {
      StepIsFresh(s.base, tx, t, pick);
    }
  }

  lemma NextTracks(s: Sql, behind: set<nat>, e: SqlEvent)
    requires SqlInv(s) && ExactBase(s.base) && Tracks(s, behind) && !CommitsBehind(s, behind, e)
    ensures Tracks(SqlNext(s, e), BehindNext(s, behind, e))
  {
    match e
    case Start(_, _) =>
    case Abort(tx) => OthersTrack(s, behind, Released(s.base, tx), tx);
    case Execute(tx, pick) =>
      if tx in s.txns {
        if s.txns[tx].pc.Commit? {
          CommitTracks(s, behind, tx, pick);
        } else {
          StepTracks(s, behind, tx, pick);
        }
      }
  }

  lemma BehindIsStale(s: Sql, behind: set<nat>, e: SqlEvent)
    requires Tracks(s, behind)
    ensures CommitsBehind(s, behind, e) <==> CommitsStale(s, e)
  {
    if e.Execute? && e.tx in s.txns {
      assert TracksTxn(s.base, behind, e.tx, s.txns[e.tx]);
    }
  }

  lemma {:induction false} ExactIffNoneBehindCommits(s: Sql, behind: set<nat>, events: seq<SqlEvent>)
    requires SqlInv(s) && ExactBase(s.base) && Tracks(s, behind)
    ensures AlwaysExact(s, events) <==> NoneBehindCommits(s, behind, events)
    decreases |events|
  {
    if events != [] {
      SqlNextKeeps(s, events[0]);
      CountsStayExactIff(s, events[0]);
      BehindIsStale(s, behind, events[0]);
      if !CommitsBehind(s, behind, events[0]) {
        NextTracks(s, behind, events[0]);
        ExactIffNoneBehindCommits(SqlNext(s, events[0]), BehindNext(s, behind, events[0]), events[1..]);
      }
    }
  }

  /** Over every run of statements: repo_count is the number of links at every
      point exactly if no transaction commits after the commit of another link
      to the row it has counted overtook it between its count and its write. */
  lemma AlwaysExactIff(events: seq<SqlEvent>)
    ensures AlwaysExact(SQL_EMPTY, events) <==> NoneBehindCommits(SQL_EMPTY, {}, events)
  {
    ExactIffNoneBehindCommits(SQL_EMPTY, {}, events);
  }

  // ------------------------------------------------------------ nobody behind

  lemma FreshTracks(s: Sql, behind: set<nat>)
    requires Tracks(s, behind) && ExactBase(s.base)
    ensures Fresh(s) <==> behind == {}
  {
    forall tx | tx in s.txns ensures TracksTxn(s.base, behind, tx, s.txns[tx]) {}
    if behind != {} {
      var tx :| tx in behind;
      assert !FreshTxn(s.base, s.txns[tx]);
    }
  }

  /** From a state in which every count is right, committed or in hand, the next
      commit leaves exact counts whatever it is; and every count in hand stays
      right exactly if no commit overtakes one. */
  lemma FreshIff(s: Sql, e: SqlEvent)
    requires SqlInv(s) && Fresh(s)
    ensures Fresh(SqlNext(s, e)) <==> !Overtakes(s, e)
    ensures ExactBase(SqlNext(s, e).base)
  {
    CountsStayExactIff(s, e);
    FreshIsTracked(s);
    BehindIsStale(s, {}, e);
    NextTracks(s, {}, e);
    OvertakesIff(s, e);
    FreshTracks(SqlNext(s, e), BehindNext(s, {}, e));
  }

  lemma FreshIsTracked(s: Sql)
    requires Fresh(s)
    ensures Tracks(s, {})
  {
    forall tx | tx in s.txns ensures TracksTxn(s.base, {}, tx, s.txns[tx]) {}
  }

  lemma OvertakesIff(s: Sql, e: SqlEvent)
    ensures BehindNext(s, {}, e) == {} <==> !Overtakes(s, e)
  {
    if Overtakes(s, e) {
      var other :| other in s.txns && Overtaken(s, e.tx, other);
      assert other in BehindNext(s, {}, e);
    }
  }

  ghost predicate NeverOvertakes(s: Sql, events: seq<SqlEvent>)
    decreases |events|
  {
    events == [] || (!Overtakes(s, events[0]) && NeverOvertakes(SqlNext(s, events[0]), events[1..]))
  }

  /** A run in which no commit overtakes a count has no stale commit, so its
      counts are exact at every point. */
  lemma {:induction false} NeverOvertakenIsExact(s: Sql, events: seq<SqlEvent>)
    requires SqlInv(s) && Fresh(s) && NeverOvertakes(s, events)
    ensures AlwaysExact(s, events) && Fresh(SqlRun(s, events))
    decreases |events|
  {
    if events != [] {
      FreshIff(s, events[0]);
      SqlNextKeeps(s, events[0]);
      NeverOvertakenIsExact(SqlNext(s, events[0]), events[1..]);
    }
  }

  // ------------------------------------------------------------ a count that is not exact

  const GO: Pick := Pick(None, false)

  lemma RunTwo(s: Sql, e: SqlEvent, f: SqlEvent)
    ensures SqlRun(s, [e, f]) == SqlNext(SqlNext(s, e), f)
  {
    assert [e, f][1..] == [f] && [f][1..] == [];
    assert SqlRun(s, [e, f]) == SqlRun(SqlNext(s, e), [f]);
  }

  lemma {:induction false} SqlRunAppend(s: Sql, a: seq<SqlEvent>, b: seq<SqlEvent>)
    ensures SqlRun(s, a + b) == SqlRun(SqlRun(s, a), b)
    decreases |a|
  {
    if a == [] {
      assert a + b == b;
    } else {
      assert (a + b)[0] == a[0] && (a + b)[1..] == a[1..] + b;
      SqlRunAppend(SqlNext(s, a[0]), a[1..], b);
    }
  }

  predicate VerifiedAt(b: Base, id: nat, oid: Oid, size: int) {
    && id in b.objects && b.objects[id].oid == oid && b.objects[id].size == Some(size)
    && Sound(b.objects[id]) && b.objects[id].uri != Some("")
  }

  /** VerifyObject on a verified row, up to and including its subquery. */
  lemma VerifyToAttach(s: Sql, tx: nat, id: nat, job: Job)
    requires BaseOk(s.base) && job.VerifyJob? && VerifiedAt(s.base, id, job.oid, job.size)
    requires tx in s.txns && s.txns[tx] == Started(job)
    ensures SqlRun(s, [Execute(tx, GO), Execute(tx, GO)]) == s.(txns := s.txns[tx := Txn(job, Attach(id), map[], {}, {}, s.base.objects[id].uri)])
  {
    var e := Execute(tx, GO);
    FindUnique(s.base, job.oid, id);
    RunTwo(s, e, e);
    assert SqlNext(s, e) == s.(txns := s.txns[tx := Started(job).(pc := Reload)]);
  }

  lemma AttachNext(s: Sql, tx: nat, id: nat, job: Job, stored: Option<Uri>)
    requires job.VerifyJob? && tx in s.txns && s.txns[tx] == Txn(job, Attach(id), map[], {}, {}, stored)
    requires Link(job.repo, id) !in s.base.links && Link(job.repo, id) !in s.base.linkClaims
    ensures var l := Link(job.repo, id);
            SqlNext(s, Execute(tx, GO)) ==
            Sql(s.base.(linkClaims := s.base.linkClaims[l := tx]), s.txns[tx := Txn(job, Recount(id), map[], {l}, {}, stored)])
  {}

  lemma RecountNext(s: Sql, tx: nat, id: nat, job: Job, l: Link, stored: Option<Uri>)
    requires tx in s.txns && s.txns[tx] == Txn(job, Recount(id), map[], {l}, {}, stored)
    ensures SqlNext(s, Execute(tx, GO)) == s.(txns := s.txns[tx := Txn(job, WriteCount(id, |LinksOf(s.base.links + {l}, id)|), map[], {l}, {}, stored)])
  {}

  lemma AttachToCount(s: Sql, tx: nat, id: nat, job: Job, stored: Option<Uri>)
    requires job.VerifyJob? && tx in s.txns && s.txns[tx] == Txn(job, Attach(id), map[], {}, {}, stored)
    requires Link(job.repo, id) !in s.base.links && Link(job.repo, id) !in s.base.linkClaims
    ensures var l, n := Link(job.repo, id), |LinksOf(s.base.links, id)| + 1;
            SqlRun(s, [Execute(tx, GO), Execute(tx, GO)]) ==
            Sql(s.base.(linkClaims := s.base.linkClaims[l := tx]), s.txns[tx := Txn(job, WriteCount(id, n), map[], {l}, {}, stored)])
  {
    var e := Execute(tx, GO);
    RunTwo(s, e, e);
    AttachNext(s, tx, id, job, stored);
    RecountNext(SqlNext(s, e), tx, id, job, Link(job.repo, id), stored);
    LinksOfAdd(s.base.links, job.repo, id, id);
  }

  /** A verify of an object while others are in progress, up to its count. */
  predicate CountedLink(s: Sql, tx: nat, t: Sql, job: Job, id: nat)
    requires job.VerifyJob? && id in s.base.objects
  {
    var l, n := Link(job.repo, id), |LinksOf(s.base.links, id)| + 1;
    && t.base == s.base.(linkClaims := s.base.linkClaims[l := tx])
    && t.txns == s.txns[tx := Txn(job, WriteCount(id, n), map[], {l}, {}, s.base.objects[id].uri)]
  }

  /** The first four statements of VerifyObject on a verified row: none of them
      locks it. */
  lemma VerifyUpToCount(s: Sql, tx: nat, id: nat, job: Job)
    requires BaseOk(s.base) && job.VerifyJob? && VerifiedAt(s.base, id, job.oid, job.size)
    requires tx in s.txns && s.txns[tx] == Started(job)
    requires Link(job.repo, id) !in s.base.links && Link(job.repo, id) !in s.base.linkClaims
    ensures CountedLink(s, tx, SqlRun(s, [Execute(tx, GO), Execute(tx, GO)] + [Execute(tx, GO), Execute(tx, GO)]), job, id)
  {
    var two := [Execute(tx, GO), Execute(tx, GO)];
    SqlRunAppend(s, two, two);
    VerifyToAttach(s, tx, id, job);
    AttachToCount(SqlRun(s, two), tx, id, job, s.base.objects[id].uri);
  }

  /** Its last two steps, for a row nobody has locked. */
  lemma CountAndCommit(s: Sql, tx: nat, id: nat)
    requires tx in s.txns && s.txns[tx].pc.WriteCount? && s.txns[tx].pc.id == id && s.txns[tx].rows == map[] && s.txns[tx].gone == {}
    requires id in s.base.objects && id !in s.base.locks
    ensures var t, r := SqlRun(s, [Execute(tx, GO), Execute(tx, GO)]), s.txns[tx];
            && t.base.objects == s.base.objects[id := s.base.objects[id].(repoCount := r.pc.n)]
            && t.base.links == s.base.links + r.links
            && id !in t.base.locks
            && t.txns == s.txns - {tx}
  {
    var e, t := Execute(tx, GO), s.txns[tx];
    RunTwo(s, e, e);
    var row := s.base.objects[id].(repoCount := t.pc.n);
    var mid := Sql(Locked(s.base, id, tx), s.txns[tx := t.(pc := Commit, rows := map[id := row])]);
    assert SqlNext(s, e) == mid;
    assert SqlNext(mid, e).base.objects == s.base.objects[id := row];
    assert SqlNext(mid, e).txns == s.txns - {tx};
  }

  // ------------------------------------------------------------ agreement with the atomic transactions

  function AsTables(b: Base): Tables {
    Tables(b.objects, b.links, b.nextId)
  }

  /** Steps of one transaction until it has ended, at most `fuel` of them. */
  ghost function Alone(b: Base, tx: nat, t: Txn, fuel: nat): StepResult
    decreases fuel
  {
    if fuel == 0 then (b, Some(t))
    else
      var (b', t') := TxStep(b, tx, t, GO);
      if t'.None? then (b', None) else Alone(b', tx, t'.value, fuel - 1)
  }

  /** What the call answers, if its next statement is the one whose row it
      checks: the row its upsert returns, or the row it reloads. */
  ghost function Answer(b: Base, t: Txn): Option<Result<Uri, TxError>> {
    if t.pc.First? && t.job.LinkJob? then
      match Find(b, t.job.oid)
      case None => Some(Accepted(NewRow(t.job), t.job.size))
      case Some(id) => Some(Accepted(Coalesced(b.objects[id], t.job.size, t.job.uri, t.job.now), t.job.size))
    else if t.pc.Reload? && t.job.VerifyJob? then Some(Reloaded(b, t))
    else None
  }

  ghost function Reloaded(b: Base, t: Txn): Result<Uri, TxError>
    requires t.job.VerifyJob?
  {
    if t.rows != map[] then var id :| id in t.rows; Accepted(t.rows[id], t.job.size)
    else
      match Find(b, t.job.oid)
      case None => Err(ObjectNotFound)
      case Some(id) => Accepted(b.objects[id], t.job.size)
  }

  /** The first answer a transaction running alone comes to. */
  ghost function AloneAnswer(b: Base, tx: nat, t: Txn, fuel: nat): Option<Result<Uri, TxError>>
    decreases fuel
  {
    if Answer(b, t).Some? || fuel == 0 then Answer(b, t)
    else
      var (b', t') := TxStep(b, tx, t, GO);
      if t'.None? then None else AloneAnswer(b', tx, t'.value, fuel - 1)
  }

  /** Nothing is in progress. */
  predicate Idle(b: Base) {
    b.locks == map[] && b.oidClaims == map[] && b.linkClaims == map[]
  }

  /** From the recount on. */
  lemma AloneCounts(b: Base, tx: nat, t: Txn, up: Tables)
    requires t.job.LinkJob? || t.job.VerifyJob?
    requires t.pc.Recount? && t.links == {Link(t.job.repo, t.pc.id)} && t.gone == {} && t.rows.Keys <= {t.pc.id}
    requires forall id | id in b.locks :: b.locks[id] == tx
    requires up == Tables(b.objects + t.rows, b.links, b.nextId) && t.pc.id in up.objects
    requires Link(t.job.repo, t.pc.id) !in b.links
    ensures var (b', t') := Alone(b, tx, t, 3);
            t'.None? && b'.objects == Attached(up, t.job.repo, t.pc.id).objects && b'.links == Attached(up, t.job.repo, t.pc.id).links
  {
    var id := t.pc.id;
    var n := |LinksOf(b.links + t.links, id)|;
    var t2 := t.(pc := WriteCount(id, n));
    var t3 := t2.(pc := Commit, rows := t.rows[id := up.objects[id].(repoCount := n)]);
    assert Alone(b, tx, t, 3) == Alone(b, tx, t2, 2);
    assert Visible(b, t2, id) == Some(up.objects[id]);
    assert Alone(b, tx, t2, 2) == Alone(Locked(b, id, tx), tx, t3, 1);
    assert Committed(Locked(b, id, tx), tx, t3).objects == up.objects[id := up.objects[id].(repoCount := n)];
  }

  /** From the INSERT of the link on: what is committed is Attached of the
      transaction's own view of the tables. */
  lemma AloneAttaches(b: Base, tx: nat, t: Txn, up: Tables)
    requires t.pc.Attach? && t.links == {} && t.gone == {} && t.rows.Keys <= {t.pc.id}
    requires t.job.LinkJob? || t.job.VerifyJob?
    requires b.linkClaims == map[] && forall id | id in b.locks :: b.locks[id] == tx
    requires up == Tables(b.objects + t.rows, b.links, b.nextId) && t.pc.id in up.objects
    ensures var (b', t') := Alone(b, tx, t, 4);
            t'.None? && b'.objects == Attached(up, t.job.repo, t.pc.id).objects && b'.links == Attached(up, t.job.repo, t.pc.id).links
  {
    var l := Link(t.job.repo, t.pc.id);
    if l in b.links {
      assert Committed(b, tx, t.(pc := Commit)).objects == up.objects;
      assert Alone(b, tx, t, 4) == Alone(b, tx, t.(pc := Commit), 3);
    } else {
      var t1 := t.(pc := Recount(l.objectId), links := {l});
      var b1 := b.(linkClaims := b.linkClaims[l := tx]);
      assert Alone(b, tx, t, 4) == Alone(b1, tx, t1, 3);
      AloneCounts(b1, tx, t1, up);
    }
  }

  /** LinkObject undisturbed, statement by statement, commits what the atomic
      transaction does and answers the same. */
  lemma AloneIsLinkTx(b: Base, tx: nat, repo: string, oid: Oid, size: int, uri: Uri, now: int)
    requires BaseOk(b) && Idle(b)
    ensures var r := Alone(b, tx, Started(LinkJob(repo, oid, size, uri, now)), 5);
            var db := LinkTx(AsTables(b), repo, oid, size, uri, now).0;
            r.1.None? && r.0.objects == db.objects && r.0.links == db.links
    ensures AloneAnswer(b, tx, Started(LinkJob(repo, oid, size, uri, now)), 5) ==
            Some(LinkTx(AsTables(b), repo, oid, size, uri, now).1)
  {
    var t := Started(LinkJob(repo, oid, size, uri, now));
    var (b1, t1) := TxStep(b, tx, t, GO);
    if t1.Some? {
      var up := Upserted(AsTables(b), oid, size, uri, now).0;
      FreshIsFree(b);
      assert up.objects == b1.objects + t1.value.rows;
      assert forall id | id in b1.locks :: b1.locks[id] == tx;
      AloneAttaches(b1, tx, t1.value, Tables(b1.objects + t1.value.rows, b1.links, b1.nextId));
    }
  }

  lemma MarkedAsOwnRow(b: Base, oid: Oid, size: int, uri: Uri, now: int, id: nat)
    requires BaseOk(b) && Find(b, oid) == Some(id)
    ensures Marked(AsTables(b), oid, size, uri, now).objects == b.objects[id := MarkedRow(b.objects[id], oid, size, uri, now)]
    ensures Lookup(Marked(AsTables(b), oid, size, uri, now), oid) == Some(id)
  {
    LookupUnique(Marked(AsTables(b), oid, size, uri, now), oid, id);
  }

  /** The same for VerifyObject. */
  lemma AloneIsVerifyTx(b: Base, tx: nat, repo: string, oid: Oid, size: int, uri: Uri, now: int)
    requires BaseOk(b) && Idle(b)
    ensures var r := Alone(b, tx, Started(VerifyJob(repo, oid, size, uri, now)), 6);
            var db := VerifyTx(AsTables(b), repo, oid, size, uri, now).0;
            r.1.None? && r.0.objects == db.objects && r.0.links == db.links
    ensures AloneAnswer(b, tx, Started(VerifyJob(repo, oid, size, uri, now)), 6) ==
            Some(VerifyTx(AsTables(b), repo, oid, size, uri, now).1)
  {
    var t := Started(VerifyJob(repo, oid, size, uri, now));
    var marked := Marked(AsTables(b), oid, size, uri, now);
    var (b1, t1) := TxStep(b, tx, t, GO);
    assert Alone(b, tx, t, 6) == Alone(b1, tx, t1.value, 5);
    assert AloneAnswer(b, tx, t, 6) == Some(Reloaded(b1, t1.value));
    match Find(b, oid)
    case None =>
      FindNone(b, oid);
      assert IdsOf(marked, oid) == {};
    case Some(id) =>
      MarkedAsOwnRow(b, oid, size, uri, now, id);
      AloneReloads(b, b1, tx, t1.value, id, MarkedRow(b.objects[id], oid, size, uri, now));
  }

  /** The row that the SELECT returns: marked before, or found as committed. */
  lemma ReloadSees(b: Base, tx: nat, t: Txn, id: nat, row: Row)
    requires t.job.VerifyJob? && t.pc.Reload? && Find(b, t.job.oid) == Some(id)
    requires t.rows == map[id := row] || (t.rows == map[] && row == b.objects[id])
    ensures TxStep(b, tx, t, GO) == AfterCheck(b, tx, t, id, row)
    ensures Reloaded(b, t) == Accepted(row, t.job.size)
  {
    if t.rows == map[id := row] {
      assert id in t.rows && t.rows.Keys == {id};
    }
  }

  lemma AloneReloads(b: Base, b1: Base, tx: nat, t: Txn, id: nat, row: Row)
    requires BaseOk(b) && t.job.VerifyJob? && t.pc.Reload? && t.links == {} && t.gone == {}
    requires Find(b, t.job.oid) == Some(id) && b1.linkClaims == map[] && forall i | i in b1.locks :: b1.locks[i] == tx
    requires b1.objects == b.objects && b1.links == b.links && b1.nextId == b.nextId
    requires t.rows == map[id := row] || (t.rows == map[] && row == b.objects[id])
    ensures var up := Tables(b.objects[id := row], b.links, b.nextId);
            var r := Alone(b1, tx, t, 5);
            r.1.None?
            && r.0.objects == (if Accepted(row, t.job.size).Ok? then Attached(up, t.job.repo, id).objects else b.objects)
            && r.0.links == (if Accepted(row, t.job.size).Ok? then Attached(up, t.job.repo, id).links else b.links)
            && Reloaded(b1, t) == Accepted(row, t.job.size)
  {
    assert Find(b1, t.job.oid) == Some(id);
    ReloadSees(b1, tx, t, id, row);
    match Accepted(row, t.job.size)
    case Ok(uri) =>
      var t1 := t.(pc := Attach(id), stored := Some(uri));
      assert Alone(b1, tx, t, 5) == Alone(b1, tx, t1, 4);
      AloneAttaches(b1, tx, t1, Tables(b1.objects + t1.rows, b1.links, b1.nextId));
      assert b1.objects + t1.rows == b.objects[id := row];
    case Err(_) =>
  }

  // ------------------------------------------------------------ from the empty tables

  /** Whatever is held is held by this transaction. */
  predicate OwnOnly(b: Base, tx: nat) {
    && (forall id | id in b.locks :: b.locks[id] == tx)
    && (forall oid | oid in b.oidClaims :: b.oidClaims[oid] == tx)
    && (forall l | l in b.linkClaims :: b.linkClaims[l] == tx)
  }

  lemma ReleasedIsIdle(b: Base, tx: nat)
    requires OwnOnly(b, tx)
    ensures Idle(Released(b, tx))
  {}

  lemma CheckOwns(b: Base, tx: nat, t: Txn, id: nat, row: Row)
    requires OwnOnly(b, tx) && (t.job.LinkJob? || t.job.VerifyJob?)
    ensures var r := AfterCheck(b, tx, t, id, row);
            && OwnOnly(r.0, tx) && (r.1.None? ==> Idle(r.0)) && (r.1.Some? ==> r.1.value.job == t.job)
  {
    ReleasedIsIdle(b, tx);
  }

  lemma UpsertOwns(b: Base, tx: nat, t: Txn)
    requires OwnOnly(b, tx) && t.job.LinkJob?
    ensures var r := UpsertStep(b, tx, t);
            && OwnOnly(r.0, tx) && (r.1.None? ==> Idle(r.0)) && (r.1.Some? ==> r.1.value.job == t.job)
  {
    var LinkJob(_, oid, size, uri, now) := t.job;
    match Find(b, oid)
    case None => CheckOwns(Claimed(b, oid, tx), tx, t.(rows := map[b.nextId := NewRow(t.job)]), b.nextId, NewRow(t.job));
    case Some(id) =>
      var row := Coalesced(b.objects[id], size, uri, now);
      CheckOwns(Locked(b, id, tx), tx, t.(rows := map[id := row]), id, row);
  }

  lemma ReloadOwns(b: Base, tx: nat, t: Txn)
    requires OwnOnly(b, tx) && t.job.VerifyJob?
    ensures var r := ReloadStep(b, tx, t);
            && OwnOnly(r.0, tx) && (r.1.None? ==> Idle(r.0)) && (r.1.Some? ==> r.1.value.job == t.job)
  {
    ReleasedIsIdle(b, tx);
  }

  lemma CommitOwns(b: Base, tx: nat, t: Txn)
    requires OwnOnly(b, tx)
    ensures OwnOnly(Committed(b, tx, t), tx) && Idle(Committed(b, tx, t))
  {}

  lemma StepOwns(b: Base, tx: nat, t: Txn)
    requires OwnOnly(b, tx) && (t.job.LinkJob? || t.job.VerifyJob?)
    ensures var r := TxStep(b, tx, t, GO);
            && OwnOnly(r.0, tx) && (r.1.None? ==> Idle(r.0)) && (r.1.Some? ==> r.1.value.job == t.job)
  {
    match t.pc
    case First => if t.job.LinkJob? { UpsertOwns(b, tx, t); }
    case Reload => if t.job.VerifyJob? { ReloadOwns(b, tx, t); }
    case Commit => CommitOwns(b, tx, t);
    case _ =>
  }

  /** Executing a transaction alone is a run, and leaves nothing held. */
  lemma {:induction false} AloneIsARun(s: Sql, tx: nat, fuel: nat) returns (events: seq<SqlEvent>)
    requires tx in s.txns && OwnOnly(s.base, tx) && (s.txns[tx].job.LinkJob? || s.txns[tx].job.VerifyJob?)
    requires Alone(s.base, tx, s.txns[tx], fuel).1.None?
    ensures SqlRun(s, events) == Sql(Alone(s.base, tx, s.txns[tx], fuel).0, s.txns - {tx})
    ensures Idle(Alone(s.base, tx, s.txns[tx], fuel).0)
    decreases fuel
  {
    var e := Execute(tx, GO);
    var s' := SqlNext(s, e);
    StepOwns(s.base, tx, s.txns[tx]);
    if tx !in s'.txns {
      events := [e];
      assert SqlRun(s', []) == s' && [e][1..] == [];
    } else {
      var rest := AloneIsARun(s', tx, fuel - 1);
      events := [e] + rest;
      assert events[1..] == rest;
      assert s'.txns - {tx} == s.txns - {tx};
    }
  }

  /** LinkObject of a new object in an empty database. */
  lemma FirstLink(repo: string, oid: Oid, size: int, uri: Uri) returns (events: seq<SqlEvent>, id: nat)
    requires uri != ""
    ensures var s := SqlRun(SQL_EMPTY, events);
            && s.txns == map[] && Idle(s.base) && VerifiedAt(s.base, id, oid, size)
            && s.base.links == {Link(repo, id)}
  {
    var job := LinkJob(repo, oid, size, uri, 0);
    var s1 := SqlNext(SQL_EMPTY, Start(1, job));
    AloneIsLinkTx(SQL_EMPTY.base, 1, repo, oid, size, uri, 0);
    var rest := AloneIsARun(s1, 1, 5);
    events := [Start(1, job)] + rest;
    assert events[1..] == rest && s1.txns - {1} == map[];
    LinkTxMeaning(EMPTY, repo, oid, size, uri, 0);
    assert IdsOf(EMPTY, oid) == {};
    id := Lookup(LinkTx(EMPTY, repo, oid, size, uri, 0).0, oid).value;
  }

  lemma StartsTwo(s: Sql, a: Job, b: Job)
    requires s.txns == map[]
    ensures SqlRun(s, [Start(1, a), Start(2, b)]) == s.(txns := map[1 := Started(a), 2 := Started(b)])
  {
    RunTwo(s, Start(1, a), Start(2, b));
    assert SqlNext(s, Start(1, a)) == s.(txns := map[1 := Started(a)]);
  }

  /** Two verifies of one verified object for two new repositories, each up to
      its count. */
  lemma TwoCount(s: Sql, id: nat, oid: Oid, size: int, uri: Uri, repoA: string, repoB: string) returns (events: seq<SqlEvent>, s2: Sql)
    requires BaseOk(s.base) && VerifiedAt(s.base, id, oid, size) && s.txns == map[] && repoA != repoB
    requires forall repo | repo in {repoA, repoB} :: Link(repo, id) !in s.base.links && Link(repo, id) !in s.base.linkClaims
    ensures var jobA, jobB := VerifyJob(repoA, oid, size, uri, 0), VerifyJob(repoB, oid, size, uri, 0);
            && CountedLink(s.(txns := map[1 := Started(jobA), 2 := Started(jobB)]), 1, s2, jobA, id)
            && CountedLink(s2, 2, SqlRun(s, events), jobB, id)
  {
    var jobA, jobB := VerifyJob(repoA, oid, size, uri, 0), VerifyJob(repoB, oid, size, uri, 0);
    var stepA, stepB := Execute(1, GO), Execute(2, GO);
    var starts, four, fourB := [Start(1, jobA), Start(2, jobB)], [stepA, stepA] + [stepA, stepA], [stepB, stepB] + [stepB, stepB];
    StartsTwo(s, jobA, jobB);
    var s1 := SqlRun(s, starts);
    VerifyUpToCount(s1, 1, id, jobA);
    s2 := SqlRun(s1, four);
    ClaimKeeps(s1.base, 1, Link(repoA, id));
    VerifyUpToCount(s2, 2, id, jobB);
    events := starts + (four + fourB);
    SqlRunAppend(s, starts, four + fourB);
    SqlRunAppend(s1, four, fourB);
  }

  /** Each counts before the other commits: two links are added and the count
      rises by one. */
  lemma TwoVerifiesFallBehind(s: Sql, id: nat, oid: Oid, size: int, uri: Uri, repoA: string, repoB: string) returns (events: seq<SqlEvent>)
    requires BaseOk(s.base) && VerifiedAt(s.base, id, oid, size) && s.txns == map[]
    requires id !in s.base.locks && repoA != repoB
    requires forall repo | repo in {repoA, repoB} :: Link(repo, id) !in s.base.links && Link(repo, id) !in s.base.linkClaims
    ensures var n, t := |LinksOf(s.base.links, id)|, SqlRun(s, events);
            && t.txns == map[] && id in t.base.objects
            && |LinksOf(t.base.links, id)| == n + 2 && t.base.objects[id].repoCount == n + 1
  {
    var stepA, stepB := Execute(1, GO), Execute(2, GO);
    var counts, mid := TwoCount(s, id, oid, size, uri, repoA, repoB);
    var s3 := SqlRun(s, counts);
    CountAndCommit(s3, 1, id);
    var s4 := SqlRun(s3, [stepA, stepA]);
    CountAndCommit(s4, 2, id);
    LinksOfAdd(s.base.links, repoA, id, id);
    LinksOfAdd(s.base.links + {Link(repoA, id)}, repoB, id, id);
    events := counts + ([stepA, stepA] + [stepB, stepB]);
    SqlRunAppend(s, counts, [stepA, stepA] + [stepB, stepB]);
    SqlRunAppend(s3, [stepA, stepA], [stepB, stepB]);
  }

  /** A whole run: one repository uploads an object, and two others verify it at
      once. Three links are committed, and the count says two. */
  lemma CountCanFallBehind(oid: Oid, size: int, uri: Uri, repo: string, repoA: string, repoB: string) returns (events: seq<SqlEvent>, id: nat)
    requires uri != "" && repo != repoA && repo != repoB && repoA != repoB
    ensures var b := SqlRun(SQL_EMPTY, events).base;
            id in b.objects && |LinksOf(b.links, id)| == 3 && b.objects[id].repoCount == 2
  {
    var first, found := FirstLink(repo, oid, size, uri);
    id := found;
    var s := SqlRun(SQL_EMPTY, first);
    RunFromEmpty(first);
    var second := TwoVerifiesFallBehind(s, id, oid, size, uri, repoA, repoB);
    assert LinksOf(s.base.links, id) == {Link(repo, id)};
    SqlRunAppend(SQL_EMPTY, first, second);
    events := first + second;
  }
}
