/** The server as a concurrent state machine. Every database transaction and
    every storage operation is one atomic step; a request in flight is a program
    counter with the values its handler has captured so far. */
module Lifecycle {
  import opened Wrappers
  import opened Uris
  import opened Tables
  import opened Sweeps
  import opened Streams

  /** The backend of each host, the backends the janitor keeps, the limit, and SHA-256. */
  datatype Config = Config(
    backends: map<string, Backend>,
    janitor: seq<Backend>,
    maxObjectSize: int,
    sha: Bytes -> Oid)

  datatype Permission = Read | Write
  datatype Operation = Upload | Download | OtherOperation
  datatype BatchObject = BatchObject(oid: Oid, size: int)

  datatype Request =
    | PutObject(host: string, repo: string, perm: Permission, oid: Oid, size: int, body: seq<Chunk>)
    | VerifyPost(host: string, repo: string, perm: Permission, oid: Oid, size: int)
    | BatchPost(repo: string, perm: Permission, op: Operation, basic: bool, objects: seq<BatchObject>)
    | GetObject(host: string, repo: string, perm: Permission, oid: Oid)
    | OrphanSweep
    | UnreferencedSweep

  datatype Answer = NoAnswer | DownloadAction | UploadActions | Failure(status: int)
  datatype Entry = Entry(oid: Oid, size: int, answer: Answer)

  datatype Reply =
    | Code(status: int)
    | NoContent(repo: string, oid: Oid, size: int)
    | Redirect
    | Body(oid: Oid, data: Bytes)
    | BatchReply(repo: string, op: Operation, objects: seq<BatchObject>, entries: seq<Entry>)
    | Swept

  /** A request in flight, named after the operation it performs next. */
  datatype Proc =
    // PUT on a filesystem backend
    | PutStat(repo: string, b: Backend, oid: Oid, size: int, body: seq<Chunk>)
    | PutCopy(repo: string, b: Backend, oid: Oid, size: int, body: seq<Chunk>)
    | PutLink(repo: string, oid: Oid, size: int, uri: Uri)
    // PUT on an S3 backend
    | SignLookup(b: Backend, oid: Oid, size: int)
    | SignInsert(b: Backend, oid: Oid, size: int)
    | SignUrl(b: Backend, oid: Oid, size: int)
    // POST verify
    | ProxyCheck(repo: string, oid: Oid, size: int)
    | HeadCheck(repo: string, b: Backend, oid: Oid, size: int)
    | MarkVerified(repo: string, oid: Oid, size: int, uri: Uri)
    // both: delete the object that lost the race
    | LoserDelete(repo: string, oid: Oid, size: int, uri: Uri)
    // POST batch
    | BatchLookup(repo: string, op: Operation, objects: seq<BatchObject>)
    | BatchEntries(repo: string, op: Operation, objects: seq<BatchObject>, found: map<Oid, Row>, entries: seq<Entry>)
    // GET
    | GetLookup(repo: string, b: Backend, oid: Oid)
    | GetOpen(b: Backend, oid: Oid, uri: Uri)
    // the janitor
    | SweepSelect(orphans: bool)
    | SweepDelete(uris: seq<Uri>)
    | Finished(reply: Reply)

  /** A presigned PUT: the bucket accepts it for this name, digest and length only. */
  datatype Ticket = Ticket(uri: Uri, oid: Oid, size: int)

  datatype World = World(db: Tables, store: map<Uri, Bytes>, tickets: set<Ticket>)
  datatype State = State(world: World, procs: map<nat, Proc>)

  /** Fails: the call had no effect and returned an error. LostReply: it took
      effect and returned an error all the same. */
  datatype Fault = NoFault | Fails | LostReply

  /** What the surroundings decide for one step: the clock, whether the call
      fails, and the answer of a janitor's SELECT. */
  datatype Choice = Choice(now: int, fault: Fault, ids: seq<nat>, locked: set<nat>)

  datatype Event =
    | Arrive(pid: nat, request: Request)
    | Advance(pid: nat, choice: Choice)
    | Crash(pid: nat)
    | ClientPut(ticket: Ticket, data: Bytes)

  const INITIAL: State := State(World(EMPTY, map[], {}), map[])
  const PLACEHOLDER: Uri := "ignored"
  const ORPHAN_AGE: int := 24 * 3600
  const SWEEP_BATCH_SIZE: int := 100

  // ------------------------------------------------------------ admission

  predicate TooLarge(cfg: Config, size: int) {
    cfg.maxObjectSize > 0 && size > cfg.maxObjectSize
  }

  /** The checks a handler makes before its first call. */
  function Admit(cfg: Config, request: Request): Proc {
    match request
    case PutObject(host, repo, perm, oid, size, body) =>
      if perm != Write then Finished(Code(403))
      else if !ValidOid(oid) then Finished(Code(400))
      else if size < 0 then Finished(Code(411))
      else if TooLarge(cfg, size) then Finished(Code(413))
      else if host !in cfg.backends then Finished(Code(500))
      else if cfg.backends[host].Filesystem? then PutStat(repo, cfg.backends[host], oid, size, body)
      else SignLookup(cfg.backends[host], oid, size)
    case VerifyPost(host, repo, perm, oid, size) =>
      if perm != Write then Finished(Code(403))
      else if !ValidOid(oid) then Finished(Code(400))
      else if host !in cfg.backends then Finished(Code(500))
      else if cfg.backends[host].Filesystem? then ProxyCheck(repo, oid, size)
      else HeadCheck(repo, cfg.backends[host], oid, size)
    case BatchPost(repo, perm, op, basic, objects) =>
      if op == OtherOperation then Finished(Code(400))
      else if op == Upload && perm != Write then Finished(Code(403))
      else if !basic then Finished(Code(422))
      else if exists i :: 0 <= i < |objects| && !ValidOid(objects[i].oid) then Finished(Code(400))
      else BatchLookup(repo, op, objects)
    case GetObject(host, repo, perm, oid) =>
      if !ValidOid(oid) then Finished(Code(400))
      else if host !in cfg.backends then Finished(Code(500))
      else GetLookup(repo, cfg.backends[host], oid)
    case OrphanSweep => SweepSelect(true)
    case UnreferencedSweep => SweepSelect(false)
  }

  // ------------------------------------------------------------ steps

  function Removed(store: map<Uri, Bytes>, uri: Uri): map<Uri, Bytes> {
    map u | u in store && u != uri :: store[u]
  }

  /** After LinkObject or VerifyObject: a transaction that fails answers 500; a
      URI other than the stored one is to be deleted. */
  function Settled(w: World, r: TxResult, fault: Fault, repo: string, oid: Oid, size: int, uri: Uri): (World, Proc) {
    match fault
    case Fails => (w, Finished(Code(500)))
    case LostReply => (w.(db := r.0), Finished(Code(500)))
    case NoFault =>
      (w.(db := r.0),
       match r.1
       case Err(_) => Finished(Code(500))
       case Ok(stored) =>
         if stored != uri then LoserDelete(repo, oid, size, uri) else Finished(NoContent(repo, oid, size)))
  }

  /** A failed delete is logged and forgotten. */
  function LoserStep(w: World, p: Proc, c: Choice): (World, Proc)
    requires p.LoserDelete?
  {
    (if c.fault == Fails then w else w.(store := Removed(w.store, p.uri)), Finished(NoContent(p.repo, p.oid, p.size)))
  }

  function CopyStatus(err: ReadError): int {
    if err.SizeMismatch? || err.HashMismatch? then 422 else 500
  }

  function PutStep(cfg: Config, w: World, p: Proc, c: Choice): (World, Proc)
    requires (p.PutStat? || p.PutCopy?) && |p.oid| >= 4
  {
    var uri := UriOf(p.b, p.oid);
    match p
    case PutStat(repo, b, oid, size, body) =>
      // an existing file is taken as it is, without reading the body
      if c.fault != Fails && uri in w.store then (w, PutLink(repo, oid, size, uri))
      else (w, PutCopy(repo, b, oid, size, body))
    case PutCopy(repo, b, oid, size, body) =>
      if c.fault != NoFault then (w, Finished(Code(500)))
      else
        match CopyResult(cfg.sha, body, size, oid)
        case Some(err) => (w, Finished(Code(CopyStatus(err))))
        case None => (w.(store := w.store[uri := Flow(body).0]), PutLink(repo, oid, size, uri))
  }

  ghost function SignStep(w: World, p: Proc, c: Choice): (World, Proc)
    requires (p.SignLookup? || p.SignInsert? || p.SignUrl?) && |p.oid| >= 4
  {
    if c.fault == Fails then (w, Finished(Code(500)))
    else
      match p
      case SignLookup(b, oid, size) =>
        if VerifiedRow(w.db, oid).Some? then (w, Finished(Code(200)))
        else (w, SignInsert(b, oid, size))
      case SignInsert(b, oid, size) =>
        (w.(db := PendingTx(w.db, oid, c.now)),
         if c.fault == LostReply then Finished(Code(500)) else SignUrl(b, oid, size))
      case SignUrl(b, oid, size) =>
        (w.(tickets := w.tickets + {Ticket(UriOf(b, oid), oid, size)}), Finished(Redirect))
  }

  ghost function CheckStep(w: World, p: Proc, c: Choice): (World, Proc)
    requires (p.ProxyCheck? || p.HeadCheck?) && |p.oid| >= 4
  {
    if c.fault == Fails then (w, Finished(Code(500)))
    else
      match p
      case ProxyCheck(repo, oid, size) =>
        (match LinkedRow(w.db, repo, oid)
         case None => (w, Finished(Code(404)))
         case Some(row) =>
           if row.size.GetOr(-1) != size then (w, Finished(Code(422)))
           else (w, Finished(NoContent(repo, oid, size))))
      case HeadCheck(repo, b, oid, size) =>
        var uri := UriOf(b, oid);
        if uri !in w.store then (w, Finished(Code(422)))
        else if |w.store[uri]| != size then (w, Finished(Code(422)))
        else (w, MarkVerified(repo, oid, size, uri))
  }

  function OidsOf(objects: seq<BatchObject>): set<Oid> {
    set i | 0 <= i < |objects| :: objects[i].oid
  }

  function DownloadEntry(found: map<Oid, Row>, o: BatchObject): Entry {
    Entry(o.oid, o.size,
          if o.oid !in found then Failure(404)
          else if found[o.oid].size.GetOr(-1) != o.size then Failure(422)
          else DownloadAction)
  }

  /** The dedup branch: the object is known at this very size. */
  predicate Dedup(cfg: Config, found: map<Oid, Row>, o: BatchObject) {
    !TooLarge(cfg, o.size) && o.oid in found && found[o.oid].size.GetOr(-1) == o.size
  }

  ghost function UploadEntry(cfg: Config, db: Tables, repo: string, found: map<Oid, Row>, o: BatchObject, c: Choice): (Tables, Entry) {
    if TooLarge(cfg, o.size) then (db, Entry(o.oid, o.size, Failure(413)))
    else if Dedup(cfg, found, o) then
      if c.fault == Fails then (db, Entry(o.oid, o.size, Failure(500)))
      else
        var (db', r) := LinkTx(db, repo, o.oid, o.size, PLACEHOLDER, c.now);
        (db', Entry(o.oid, o.size, if r.Err? || c.fault == LostReply then Failure(500) else NoAnswer))
    else if o.oid in found then (db, Entry(o.oid, o.size, Failure(409)))
    else (db, Entry(o.oid, o.size, UploadActions))
  }

  ghost function BatchStep(cfg: Config, w: World, p: Proc, c: Choice): (World, Proc)
    requires p.BatchLookup? || p.BatchEntries?
  {
    match p
    case BatchLookup(repo, op, objects) =>
      if c.fault == Fails then (w, Finished(Code(500)))
      else
        var found := if op == Download then LinkedRows(w.db, repo, OidsOf(objects)) else VerifiedRows(w.db, OidsOf(objects));
        (w, BatchEntries(repo, op, objects, found, []))
    case BatchEntries(repo, op, objects, found, entries) =>
      if |entries| >= |objects| then (w, Finished(BatchReply(repo, op, objects, entries)))
      else
        var o := objects[|entries|];
        var (db', entry) := if op == Download then (w.db, DownloadEntry(found, o)) else UploadEntry(cfg, w.db, repo, found, o, c);
        (w.(db := db'), BatchEntries(repo, op, objects, found, entries + [entry]))
  }

  ghost function GetStep(w: World, p: Proc, c: Choice): (World, Proc)
    requires p.GetLookup? || p.GetOpen?
  {
    if c.fault == Fails then (w, Finished(Code(500)))
    else
      match p
      case GetLookup(repo, b, oid) =>
        (match LinkedRow(w.db, repo, oid)
         case None => (w, Finished(Code(404)))
         case Some(row) =>
           if row.uri.GetOr("") == "" || row.size.GetOr(-1) < 0 then (w, Finished(Code(500)))
           else (w, GetOpen(b, oid, row.uri.GetOr(""))))
      case GetOpen(b, oid, uri) =>
        if !Resolves(b, uri) then (w, Finished(Code(500)))
        else if b.Bucket? then (w, Finished(Redirect))
        else if uri !in w.store then (w, Finished(Code(500)))
        else (w, Finished(Body(oid, w.store[uri])))
  }

  /** The cells deleteObjects goes through for one swept row: those its backends
      recognise as their own. */
  function Targets(janitor: seq<Backend>, row: Row): seq<Uri> {
    var uri := row.uri.GetOr("");
    if uri == "" then PresignTargets(janitor, row.oid)
    else if Route(janitor, uri).Some? && Resolves(Route(janitor, uri).value, uri) then [uri]
    else []
  }

  function PresignTargets(janitor: seq<Backend>, oid: Oid): (r: seq<Uri>)
    ensures forall u :: u in r <==> exists b :: b in janitor && b.Bucket? && Resolves(b, u) && u == UriOf(b, oid)
  {
    if janitor == [] then []
    else
      var b := janitor[0];
      (if b.Bucket? && Resolves(b, UriOf(b, oid)) then [UriOf(b, oid)] else []) + PresignTargets(janitor[1..], oid)
  }

  function AllTargets(janitor: seq<Backend>, db: Tables, ids: seq<nat>): (r: seq<Uri>)
    requires forall id | id in ids :: id in db.objects
    ensures forall u :: u in r <==> exists id :: id in ids && u in Targets(janitor, db.objects[id])
  {
    if ids == [] then [] else Targets(janitor, db.objects[ids[0]]) + AllTargets(janitor, db, ids[1..])
  }

  predicate Selected(db: Tables, orphans: bool, c: Choice) {
    && (if orphans then OrphanBatch(db, c.ids, c.now - ORPHAN_AGE, SWEEP_BATCH_SIZE, c.locked)
        else UnreferencedBatch(db, c.ids, SWEEP_BATCH_SIZE, c.locked))
    && forall id | id in c.ids :: id in db.objects
  }

  function SweepStep(cfg: Config, w: World, p: Proc, c: Choice): (World, Proc)
    requires p.SweepSelect? || p.SweepDelete?
  {
    match p
    case SweepSelect(orphans) =>
      if c.fault == Fails then (w, Finished(Swept))
      else if !Selected(w.db, orphans, c) then (w, p)
      else (w.(db := Deleted(w.db, ToSet(c.ids))),
            if c.fault == LostReply then Finished(Swept) else SweepDelete(AllTargets(cfg.janitor, w.db, c.ids)))
    case SweepDelete(uris) =>
      if uris == [] then (w, Finished(Swept))
      else (if c.fault == Fails then w else w.(store := Removed(w.store, uris[0])), SweepDelete(uris[1..]))
  }

  /** One step of one request. */
  ghost function Act(cfg: Config, w: World, p: Proc, c: Choice): (World, Proc)
    requires Shaped(p)
  {
    match p
    case PutStat(_, _, _, _, _) => PutStep(cfg, w, p, c)
    case PutCopy(_, _, _, _, _) => PutStep(cfg, w, p, c)
    case PutLink(repo, oid, size, uri) =>
      Settled(w, LinkTx(w.db, repo, oid, size, uri, c.now), c.fault, repo, oid, size, uri)
    case SignLookup(_, _, _) => SignStep(w, p, c)
    case SignInsert(_, _, _) => SignStep(w, p, c)
    case SignUrl(_, _, _) => SignStep(w, p, c)
    case ProxyCheck(_, _, _) => CheckStep(w, p, c)
    case HeadCheck(_, _, _, _) => CheckStep(w, p, c)
    case MarkVerified(repo, oid, size, uri) =>
      Settled(w, VerifyTx(w.db, repo, oid, size, uri, c.now), c.fault, repo, oid, size, uri)
    case LoserDelete(_, _, _, _) => LoserStep(w, p, c)
    case BatchLookup(_, _, _) => BatchStep(cfg, w, p, c)
    case BatchEntries(_, _, _, _, _) => BatchStep(cfg, w, p, c)
    case GetLookup(_, _, _) => GetStep(w, p, c)
    case GetOpen(_, _, _) => GetStep(w, p, c)
    case SweepSelect(_) => SweepStep(cfg, w, p, c)
    case SweepDelete(_) => SweepStep(cfg, w, p, c)
    case Finished(_) => (w, p)
  }

  /** Object ids in flight have passed the pattern of the handlers. */
  predicate Shaped(p: Proc) {
    match p
    case PutStat(_, _, oid, _, _) => ValidOid(oid)
    case PutCopy(_, _, oid, _, _) => ValidOid(oid)
    case SignLookup(_, oid, _) => ValidOid(oid)
    case SignInsert(_, oid, _) => ValidOid(oid)
    case SignUrl(_, oid, _) => ValidOid(oid)
    case ProxyCheck(_, oid, _) => ValidOid(oid)
    case HeadCheck(_, _, oid, _) => ValidOid(oid)
    case _ => true
  }

  predicate Accepts(cfg: Config, w: World, t: Ticket, data: Bytes) {
    t in w.tickets && cfg.sha(data) == t.oid && |data| == t.size
  }

  /** One event. Events that cannot happen in `s` change nothing. */
  ghost function Next(cfg: Config, s: State, e: Event): State {
    match e
    case Arrive(pid, request) =>
      if pid in s.procs then s else s.(procs := s.procs[pid := Admit(cfg, request)])
    case Advance(pid, c) =>
      if pid !in s.procs || !Shaped(s.procs[pid]) then s
      else
        var (w, p) := Act(cfg, s.world, s.procs[pid], c);
        State(w, s.procs[pid := p])
    case Crash(pid) =>
      if pid !in s.procs || s.procs[pid].Finished? then s
      else s.(procs := map q | q in s.procs && q != pid :: s.procs[q])
    case ClientPut(t, data) =>
      if !Accepts(cfg, s.world, t, data) then s
      else s.(world := s.world.(store := s.world.store[t.uri := data]))
  }

  /** An advance is one step of its request. */
  lemma AdvanceIsAct(cfg: Config, s: State, pid: nat, c: Choice)
    requires pid in s.procs && Shaped(s.procs[pid])
    ensures var (w, p) := Act(cfg, s.world, s.procs[pid], c);
            Next(cfg, s, Advance(pid, c)) == State(w, s.procs[pid := p])
  {}

  /** Any finite history: every interleaving of every set of requests. */
  ghost function Run(cfg: Config, s: State, events: seq<Event>): State
    decreases |events|
  {
    if events == [] then s else Run(cfg, Next(cfg, s, events[0]), events[1..])
  }

  lemma {:induction false} RunAppend(cfg: Config, s: State, a: seq<Event>, b: seq<Event>)
    ensures Run(cfg, s, a + b) == Run(cfg, Run(cfg, s, a), b)
    decreases |a|
  {
    if a == [] {
      assert a + b == b;
    } else {
      assert (a + b)[0] == a[0] && (a + b)[1..] == a[1..] + b;
      RunAppend(cfg, Next(cfg, s, a[0]), a[1..], b);
    }
  }
}
