# Verification of the Git LFS server's object lifecycle

This project models the server that stores Git LFS objects for several forges,
and proves what its handlers, its two database tables, its storage backends and
its janitor guarantee together. `dafny verify dfyconfig.toml` checks all of it.

## What is modelled

**The server as a concurrent state machine** (`Tables`, `Sweeps`, `Lifecycle`).
Every committed database transaction and every storage operation is one atomic
step. A request in flight is a program counter with the values its handler has
captured. Any number of proxied uploads, presigned uploads, verifies, batches,
downloads and sweeps interleave; every call may fail, or take effect and lose its
reply; a request may crash anywhere; clients use presigned URLs at any time.
`Safety` states the inductive invariant (tables, blobs, and the captured values
of every request), `Steps` proves each step keeps it, and `Guarantees` reads off
what holds over every run: byte safety of files, one winner per object,
write-once rows, the placeholder that is never stored, promises that are kept.

**What the code does not guarantee, and exactly when it does.** `Sizes` says
which single step makes the recorded size of a file differ from its length: a
LinkObject that verifies an object with a declared size its file does not have.
`Presign` says which two steps lose the bytes of a bucket object: a janitor
delete of an object verified since its sweep, and a VerifyObject of a new row
whose object is gone since Head. Each condition is exact for one event and over
whole runs. `Witnesses` gives a run in which each of the three happens.

**The transactions statement by statement** (`Statements`, `Isolation`,
`Winners`, `Offers`): READ COMMITTED, row locks, uncommitted index entries, SKIP
LOCKED, and a recount whose subquery counts before its UPDATE waits. Counts are
bounded at this level. They are exact at every point of a run exactly if no
transaction commits after falling behind, that is, after the commit of another
link to the row it has counted overtook it between its count and its write; a run
from the empty tables shows that it happens. Whatever the interleaving, each call
commits what the atomic transaction promises, all calls for one object return the
one URI that each of them read, and the placeholder stays out of every row.

**Verified streaming and the file store** (`Streams`, `FileStore`, `Filesystem`,
`Atomicity`). The two checking readers and the copy loop run over every chunking
of a body and every way it may end. Concurrent Puts run over directory entries
and inodes with faults and crashes, whatever names their temporary files draw;
the final files are whole over a run exactly if no step of it spoils one. The
imperative Put is a run of that store. `Atomicity` joins the store to the server:
with every other request, backend and sweep in between, each joint run is a run
of the state machine, and the files behind verified rows are on disk.

**The imperative code around it**: `Database` (each call, statement by statement,
with rollback), `Handlers` (uploads and verifies, each shown to be a run of its
request in the state machine), `Batch` (the batch handler and its loop), `Janitor` (both passes
and the deleting loops under any failures), `Allowlist` (compiler and matcher),
`AuthCache` (cache key, TTL, and the cache over runs, with the configurations
for which a cached permission always belongs to the request it serves), `Uris` and
`Paths` (names of cells, URL parsing and path cleaning, scheme routing).

## Assumptions

- The system is closed: it starts with empty tables and an empty store, and only
  the server and clients with presigned URLs act on them.
- Different URIs name different storage cells: no two filesystem schemes share a
  root. `Uris.UriDeterminesOid` and `Uris.FilesAndBucketsAreApart` prove what can
  be proved of this.
- Schemes contain a colon only in the `://` at their end, and bucket names have
  no slash. A filesystem scheme is one that URL parsing gives back unchanged: a
  lower-case letter, then lower-case letters, digits, `+`, `.` and `-`. A
  filesystem root is absolute and clean, not `/`, and has no `%`, `?`, `#` or
  control character (`Uris.WellFormed`).
- A bucket accepts a presigned PUT for its name, digest and length only.
- SHA-256 is an uninterpreted function. Freedom from collisions is assumed only
  where a lemma says so (`Sizes.CollisionFree`, `AuthCache.Injective`).

## Where the code and its documentation differ

- `internal/storage/filesystem.go:58-60` returns early without reading the body
  when the file exists, so the size that `cmd/lfsd/lfs.go:283` then records for a
  new object is the declared one. `Sizes.FileSizesStayTrueIff` and
  `Witnesses.EarlyReturnRecordsDeclaredSize` follow the code.
- `internal/database/objects.go:253-256` asks callers to tolerate an object that
  outlives its row; an object that the late delete takes after its row was
  verified again is not covered by that (`Presign.BucketsKeptIff`,
  `Witnesses.LateDeleteLosesBytes`, `Witnesses.StaleMarkLosesBytes`).
- `internal/database/objects.go:304-307` argues with LinkObject's row lock;
  VerifyObject takes no such lock on a row that is already verified, so its
  count can be overtaken (`Isolation.FreshIff`, `Isolation.CountCanFallBehind`).
- `internal/janitor/janitor.go:29` takes the configured backends, but keeps one
  per scheme: of two buckets that share a scheme one is never swept
  (`Janitor.KeptIsSweptIff`).
- `cmd/lfsd/config.go:162-170` and `internal/storage/filesystem.go:23-39` accept
  schemes and roots with which a backend does not find its own objects again: a
  scheme with a capital letter, which `internal/storage/filesystem.go:137`
  compares with a parsed one in lower case; a root with `%`, `?`, `#` or a control
  character, which the URL parser at line 133 decodes, cuts or rejects; and a root
  of `/` (`Uris.PathRoundTrip` says exactly which).
- `internal/embed/config.ini:39-41` relies on an atomic rename. When CreateTemp
  draws a name whose deferred removal (`internal/storage/filesystem.go:70`) is
  still to come, a rename can replace a complete object
  (`FileStore.ReusedNameCorrupts`, `FileStore.AlwaysWholeIff`).
- `cmd/lfsd/auth.go:87-92` joins host, repository, user and token with colons,
  which hosts and repositories may contain. Two requests can share a key, and one
  be served the other's permission, exactly if two sites that the configuration
  lets through nest (`AuthCache.KeysApartIff`, `AuthCache.GrantsServeTheirOwnIff`);
  every host without an allowlist has two that do (`AuthCache.TreesNest`).

## Model

| member | source | states |
|---|---|---|
| Uris.KeyRebuildsUri | internal/storage/s3_presign.go:195-208 | every URI that keyFromURI accepts is rebuilt from its nonempty key |
| Uris.KeyRoundTrip | internal/storage/s3_presign.go:86-88 | keyFromURI(URI(oid)) is oid, for every nonempty oid, exactly if the bucket has no slash |
| Paths.ParsesPlain | internal/storage/filesystem.go:131-146 | a proper scheme and an absolute path of plain characters come back from the URL parser as they were put in |
| Paths.PathComesBack | internal/storage/filesystem.go:131-146 | a path with "%", "?", "#" or a control character is rejected or comes back shorter |
| Paths.AbsoluteIff | internal/storage/filesystem.go:30-37 | the absolute paths that cleaning leaves alone are "/" and the lists of real names |
| Uris.PathRoundTrip | internal/storage/filesystem.go:131-154 | for any scheme and root that the configuration accepts, pathFromURI returns the storage path of the backend's own URI exactly if URL parsing gives scheme and root back unchanged and the root is not "/" |
| Uris.NothingEscapes | internal/storage/filesystem.go:147-153 | whatever escapes and dots a URI has, the path it is resolved to is the root, or below it through real names only |
| Uris.ResolvedPath | internal/storage/filesystem.go:131-154 | the URI of another filesystem backend resolves to that one's path, exactly if the schemes agree and the path is under the own root |
| Uris.BucketsDoNotResolve | internal/storage/filesystem.go:131-154 | a filesystem backend refuses every bucket object |
| Uris.UriDeterminesOid | internal/storage/filesystem.go:47-49 | URIs of two objects differ, whichever backends build them |
| Uris.OneSchemeOwnsUri | cmd/lfsd/config.go:162-170 | at most one scheme with "://" only at its end is a prefix of any URI |
| Uris.FilesAndBucketsAreApart | internal/storage/filesystem.go:123-129 | a file and a bucket object never share a URI, even under one scheme |
| Uris.RouteReachesOwner | internal/janitor/janitor.go:116-123 | with distinct schemes deleteByURI reaches the backend that built the URI, in any backend order |
| Tables.UpsertedKeeps | internal/database/objects.go:77-88 | the upsert leaves one verified row for the oid, unchanged if it was verified, filled with the offered values otherwise, and no other row changes |
| Tables.MarkedKeeps | internal/database/objects.go:144-151 | the guarded UPDATE verifies a pending row with the offered values and changes no verified row |
| Tables.AttachedKeeps | internal/database/objects.go:97-115 | linking and recounting restores the exact count and keeps every other invariant |
| Tables.LinkTxMeaning | internal/database/objects.go:74-122 | LinkObject fails exactly on a verified row of another size and then changes nothing; otherwise the object is verified and linked under the URI it first got, and all else is untouched |
| Tables.VerifyTxMeaning | internal/database/objects.go:142-196 | VerifyObject also fails without a row; otherwise the same meaning as LinkObject, and no row is created |
| Tables.EmptyOffer | internal/database/objects.go:92-95 | an empty URI is taken like any other offer for a verified object and otherwise fails without a change |
| Tables.PendingTxKeeps | internal/database/objects.go:126-136 | nothing changes if the oid has a row; otherwise it gets one pending row without links, and every other row and link stays |
| Tables.DeletedKeeps | internal/database/objects.go:286-291 | deleting pending rows keeps the tables' invariant and everything verified, and the deleted oids have no row left |
| Sweeps.OldestExists | internal/database/objects.go:264-276 | the SELECT always has an answer: the oldest min(limit, eligible) rows, each once |
| Sweeps.SweepShrinks | internal/database/objects.go:257-299 | a sweep takes exactly its rows out of the eligible set |
| Sweeps.SweepsDrain | internal/janitor/janitor.go:63-75 | with each sweep at its own cutoff and anything in between that makes no new row eligible, after k sweeps at most max(0, n - k * limit) of n rows are eligible |
| Sweeps.SweepsSuffice | internal/janitor/janitor.go:63-75 | so ceil(n / limit) sweeps leave nothing eligible |
| Sweeps.UndisturbedDrain | internal/janitor/janitor.go:63-75 | with nothing in between exactly max(0, n - k * limit) are left |
| Sweeps.SweepsNeeded | internal/janitor/janitor.go:63-75 | then the eligible set is empty exactly after ceil(n / limit) sweeps |
| Sweeps.OrphanSweepKeeps | internal/database/objects.go:257-299 | an orphan sweep removes exactly its pending rows; every other row and every link stays as it was |
| Sweeps.NothingUnreferenced | internal/database/objects.go:308-349 | while counts are exact the unreferenced sweep finds no row |
| Sweeps.UnreferencedHaveNoLinks | internal/database/objects.go:317-342 | from any tables with exact counts, the rows it deletes have no link |
| Streams.DeliveredIsPrefix | internal/iox/exact_size_reader.go:36-50 | what gets through is a prefix of the stream: all of it within the size, and past the size on an overrun |
| Streams.CopySucceedsIff | internal/storage/filesystem.go:72-75 | the copy succeeds exactly if the stream ends in a plain EOF after exactly size bytes that hash to the oid, and then the sink has those bytes |
| Streams.ChunkingDoesNotMatter | internal/iox/sha256_reader.go:38-56 | how a stream is cut into chunks changes the outcome only in the count an overrun reports |
| Streams.OverrunStopsAtOnce | internal/iox/exact_size_reader.go:40-42 | on an overrun the total before the last chunk had not passed the size |
| Streams.ExactSizeReader.Read | internal/iox/exact_size_reader.go:36-50 | one Read adds its bytes to the count and replaces the error on a mismatch |
| Streams.Sha256Reader.Read | internal/iox/sha256_reader.go:38-56 | one Read feeds its bytes to the hash and replaces an end of stream on another digest |
| Streams.CopyGoesOn | internal/storage/filesystem.go:72-75 | a chunk without error keeps the relation of delivered bytes, unread stream and outcome |
| Streams.CopyStops | internal/storage/filesystem.go:72-75 | the chunk with an error ends the copy with the outcome of the whole stream |
| Streams.CopyChunk | internal/storage/filesystem.go:72-75 | the bytes of a chunk reach the file before its error is looked at, the hash is that of the bytes read, and a failed write leaves the file as it was |
| Streams.Copy | internal/storage/filesystem.go:72-75 | the loop over both readers ends: at the failing write if it gets there, otherwise with the outcome of the whole stream and the delivered bytes in the file |
| Steps.StatSound | internal/storage/filesystem.go:58-60 | taking an existing file as it is leaves the request with its bytes in place |
| Steps.CopySound | cmd/lfsd/lfs.go:264-281 | storing a verified body keeps the invariant; a failed one stores nothing |
| Steps.LinkSound | cmd/lfsd/lfs.go:282-295 | LinkObject after Put keeps the invariant; a loser is deleted only after losing, and a 204 leaves the object downloadable |
| Steps.MarkSound | cmd/lfsd/lfs.go:513-526 | the same for VerifyObject after Head |
| Steps.SignSound | cmd/lfsd/lfs.go:298-331 | looking up, inserting a pending row and signing keep the invariant |
| Steps.ProxyCheckSound | cmd/lfsd/lfs.go:470-490 | a proxied verify that answers 204 answers it for a downloadable object |
| Steps.HeadCheckSound | cmd/lfsd/lfs.go:492-511 | Head lets only an admissible size of a stored object through |
| Steps.LoserSound | cmd/lfsd/lfs.go:289-293 | the loser delete keeps the invariant: the file of every verified row stays |
| Steps.DedupLinks | cmd/lfsd/lfs.go:177-185 | the dedup branch meets the row it was shown, so it never fails and never writes the placeholder |
| Steps.BatchEntriesSound | cmd/lfsd/lfs.go:154-204 | each round of the batch loop keeps every promise made so far |
| Steps.GetLookupSound | cmd/lfsd/lfs.go:356-375 | the download handler captures the canonical URI |
| Steps.GetOpenSound | cmd/lfsd/lfs.go:389-411 | bytes sent to a client hash to the requested id |
| Steps.SweepSelectSound | internal/database/objects.go:257-299 | a sweep's transaction keeps the invariant and aims only at bucket objects |
| Steps.SweepDeleteSound | internal/janitor/janitor.go:91-102 | a sweep's storage delete keeps the invariant |
| Steps.AdmitSound | cmd/lfsd/lfs.go:213-256 | the checks before the first call establish what later steps rely on |
| Steps.NextKeeps | cmd/lfsd/lfs.go:258-296 | every event of every request keeps the invariant, and what other requests have captured stays valid |
| Steps.RunKeeps | cmd/lfsd/lfs.go:258-296 | so does every finite history |
| Guarantees.FilesAreBacked | cmd/lfsd/lfs.go:266-293 | over every run the file of a verified row is there and hashes to its oid; after Put a request's file is there or the object is verified under another URI |
| Guarantees.TablesAreKept | internal/database/database.go:119-127 | over every run: unique oids, all-or-none columns, exact counts, no dangling link, and no unreferenced row |
| Guarantees.PlaceholderIsNeverStored | cmd/lfsd/lfs.go:180-182 | no row of any reachable state has the URI "ignored" |
| Guarantees.SnapshotStillHolds | cmd/lfsd/lfs.go:177-185 | whatever ran since a batch looked its objects up, a captured row is there unchanged and its LinkObject returns its URI |
| Guarantees.CallDecides | internal/database/objects.go:80-95 | a successful call returns the canonical URI: the earlier one if the object was verified, its own offer otherwise |
| Guarantees.WinnersAgree | internal/database/objects.go:80-95 | any two successful LinkObject or VerifyObject calls for one object return the same URI, the offer of the call that first verified it |
| Guarantees.VerifiedIsWriteOnce | internal/database/objects.go:80-83 | size, URI and times of a verified row never change and the row stays; its count only rises |
| Guarantees.LoserIsNeverCanonical | cmd/lfsd/lfs.go:289-293 | a pending loser delete never aims at the URI of any verified row |
| Guarantees.SizesAreBounded | cmd/lfsd/lfs.go:367-375 | every row a download finds has a URI and a size within the limit, so the schema-violation branch is unreachable |
| Guarantees.PromisesAreKept | cmd/lfsd/lfs.go:154-204 | after a 204, or a batch entry without error and actions, every later download batch of the repository offers a download |
| Guarantees.DownloadDelivers | cmd/lfsd/lfs.go:389-411 | a download from a filesystem backend without faults sends bytes hashing to the id exactly if the backend resolves the canonical URI |
| Sizes.FileSizesStayTrueIff | internal/database/objects.go:89-95 | after an event every file has its recorded size exactly if the event is not a LinkObject that verifies an object with another size than its file has |
| Sizes.AlwaysTrueIff | internal/storage/filesystem.go:58-60 | over runs the recorded sizes of files are true at every point exactly if no event misrecords one |
| Sizes.CopiesAreHonest | internal/storage/filesystem.go:72-87 | a request that copied its body declares the length of its file |
| Sizes.MisrecordersSkipped | internal/storage/filesystem.go:58-60 | over every run, whoever misrecords a size is a request whose stat found a file, so that its body was never read |
| Sizes.RecordedSizeIsLength | cmd/lfsd/lfs.go:495-511 | over every run a verified bucket object that is stored has its recorded size |
| Presign.MarkKeepsBucketsIff | cmd/lfsd/lfs.go:513-519 | VerifyObject keeps every verified bucket object stored exactly if it does not verify a pending row whose object is gone since Head |
| Presign.SweepDeleteKeepsIff | internal/janitor/janitor.go:91-102 | a janitor delete does so exactly if the object was not verified since its sweep |
| Presign.BucketsKeptIff | internal/database/objects.go:253-256 | over all steps those two are the only ones that lose bytes of a verified bucket object |
| Presign.AlwaysKeptIff | internal/database/objects.go:253-256 | over runs every verified bucket object is stored at every point exactly if none of those two steps happens |
| Presign.BucketObjectsAreSafe | cmd/lfsd/lfs.go:492-524 | over every run without them a verified bucket object is stored, hashes to its oid and has its recorded size |
| Presign.AllStaySteady | internal/janitor/janitor.go:63-75 | undisturbed exchanges keep every verified bucket object stored |
| Presign.UndisturbedBucketsAreSafe | cmd/lfsd/lfs.go:492-524 | over every run of undisturbed exchanges a verified bucket object is stored, hashes to its oid and has its recorded size |
| Presign.ExchangesAreRuns | cmd/lfsd/lfs.go:492-524 | runs of undisturbed exchanges are runs of the server |
| Witnesses.EarlyReturnRecordsDeclaredSize | internal/storage/filesystem.go:58-60 | a run after which a verified row records a size its file does not have |
| Witnesses.LateDeleteLosesBytes | internal/janitor/janitor.go:91-102 | a run after which a verified bucket object is gone: the janitor deletes what was uploaded and verified since its sweep |
| Witnesses.StaleMarkLosesBytes | cmd/lfsd/lfs.go:495-519 | a run after which a verified bucket object is gone: a verify marks a new row with what Head saw before a sweep |
| Statements.UpsertGood | internal/database/objects.go:77-88 | the upsert under locks keeps what is committed and what every other transaction relies on |
| Statements.MarkGood | internal/database/objects.go:144-151 | so does the guarded UPDATE, which locks only a pending row |
| Statements.ReloadGood | internal/database/objects.go:153-169 | so does the unlocked SELECT |
| Statements.AttachGood | internal/database/objects.go:97-105 | so does the INSERT of the link, which waits for an uncommitted one |
| Statements.RecountGood | internal/database/objects.go:107-110 | the subquery counts at least the new link and no more than the links |
| Statements.WriteCountGood | internal/database/objects.go:107-110 | the UPDATE waits for the row's lock and writes that count |
| Statements.SelectGood | internal/database/objects.go:317-322 | SKIP LOCKED locks only rows that nobody is linking |
| Statements.InsertPendingGood | internal/database/objects.go:127-130 | the pending insert is committed by itself and links nothing |
| Statements.CommitGood | internal/database/objects.go:106-117 | a commit never makes a link dangle, duplicates an oid or rewrites a verified row |
| Statements.SqlNextKeeps | internal/database/objects.go:74-122 | every statement of every transaction keeps the invariant of the base and of all transactions |
| Isolation.CountsAreBounded | internal/database/objects.go:107-110 | in every reachable state, 1 <= repo_count <= number of links for a committed verified row, none for a pending one, and no dangling link |
| Isolation.SweepsSpareLinkedRows | internal/database/objects.go:301-343 | a row that a sweep is about to delete is pending and has no link, committed or in progress |
| Isolation.CommittedIsWriteOnce | internal/database/objects.go:80-83 | a committed verified row keeps its size, URI and times over every run of statements |
| Isolation.CountsStayExactIff | internal/database/objects.go:107-110 | after a statement every committed count is the number of links exactly if the statement is not a stale commit |
| Isolation.ExactIffNeverStale | internal/database/objects.go:107-110 | over runs of statements counts are exact at every point exactly if no commit is stale |
| Isolation.AlwaysExactIff | internal/database/objects.go:107-110 | over every run, counts are exact at every point exactly if no transaction commits whose count was overtaken, between its count and its write, by the commit of another link to that row |
| Isolation.CommitStaysFreshIff | internal/database/objects.go:144-190 | a commit leaves another transaction's right count right exactly if it adds no link to the row that one has counted and not yet written |
| Isolation.FreshIff | internal/database/objects.go:144-190 | while every count in hand is right the next commit leaves exact counts, and they stay right exactly if no commit of another link overtakes one |
| Isolation.NeverOvertakenIsExact | internal/database/objects.go:304-307 | runs in which no commit overtakes a count have exact counts at every point |
| Isolation.CountCanFallBehind | internal/database/objects.go:144-190 | a run from the empty tables after which three links are committed and the count is two |
| Isolation.AloneIsLinkTx | internal/database/objects.go:74-122 | LinkObject undisturbed, statement by statement, commits what the atomic transaction does and answers the same URI or error |
| Isolation.AloneIsVerifyTx | internal/database/objects.go:142-196 | the same for VerifyObject |
| Winners.CommitIsFirstWriter | internal/database/objects.go:74-122 | at statement level a commit leaves one verified row for the object, linked, with the URI it first got, and touches nothing else |
| Winners.EveryCommitIsFirstWriter | internal/database/objects.go:80-95 | so does every commit of a call in every reachable state |
| Winners.CommitsAgree | internal/database/objects.go:80-95 | any two calls for one object that commit, with any statements in between, return the same URI: the one each of them read at its upsert or reload |
| Offers.PlaceholderIsNeverStored | cmd/lfsd/lfs.go:180-182 | over every interleaving of statements, a placeholder offered only for objects seen verified is in no row, committed or uncommitted |
| FileStore.TempIsNotFinal | internal/storage/filesystem.go:65-69 | a temporary path is never a final path, wherever the two directories are |
| FileStore.FinalDeterminesOid | internal/storage/filesystem.go:47-49 | final paths of two objects differ |
| FileStore.EveryNameIsAccountedFor | internal/storage/filesystem.go:65-70 | over every run each name is final, held by a live Put, or left by one that died or failed to remove it |
| FileStore.WholeIff | internal/storage/filesystem.go:51-91 | in any reachable state the final files are whole after a step exactly if it does not spoil one: a rename of other bytes, or a write into a file already under a final name |
| FileStore.AlwaysWholeIff | internal/storage/filesystem.go:51-91 | over runs, crashes included, every final path is absent or whole at every point exactly if no step spoils one |
| FileStore.SpoilsIffStolen | internal/storage/filesystem.go:87-89 | while no file being written stands under a final name, a step spoils one exactly if it renames another Put's file that holds other bytes |
| FileStore.FinalFilesAreWhole | internal/storage/filesystem.go:51-91 | over every run in which no rename moves another Put's file, every final path is absent or complete at every point |
| FileStore.FreshNamesNeverStolen | internal/storage/filesystem.go:65 | no rename does so when no CreateTemp draws a name that a live Put still goes by |
| FileStore.ReusedNameCorrupts | internal/storage/filesystem.go:65-70 | three Puts, one of which draws a name whose deferred removal is still to come, replace a complete object by an empty file |
| Atomicity.PutterLooksAtomic | internal/storage/filesystem.go:51-91 | each call inside Put looks like nothing or like one atomic step; the rename is where the copy takes effect |
| Atomicity.JointRunIsARun | internal/storage/filesystem.go:51-91 | every run of the server over the disk of a backend, with Puts call by call and any other events in between, is a run of the state machine, and disk and store agree |
| Atomicity.DiskBacksRows | cmd/lfsd/lfs.go:266-293 | over every such run the file of a verified row is on disk and hashes to its oid, and a request about to link has its file or has lost |
| Filesystem.FilesystemBackend.Put | internal/storage/filesystem.go:51-91 | Put leaves the disk and returns the result that its failing calls determine, a write in the middle included, reading the body only if the file is absent |
| Filesystem.FilesystemBackend.Delete | internal/storage/filesystem.go:108-117 | Delete refuses a URI outside the root, removes that one name, and takes a missing file for success |
| Filesystem.PutStores | internal/storage/filesystem.go:51-91 | Put succeeds exactly if the file was there or the whole body came and no stage failed; then the final path has the body, otherwise it is as before |
| Filesystem.PutFrame | internal/storage/filesystem.go:65-70 | no temporary file stays unless its removal failed, and no other name or file changes |
| Filesystem.PutIsARun | internal/storage/filesystem.go:51-91 | the imperative Put has the disk and outcome of a run of the concurrent store with nothing else going on |
| Database.Database.UpsertObject | internal/database/objects.go:77-88 | the statement has the effect and the returned row of the table function |
| Database.Database.LinkObject | internal/database/objects.go:74-122 | commits what LinkTx says, or nothing at all when it fails or a statement does |
| Database.Database.VerifyObject | internal/database/objects.go:142-196 | commits what VerifyTx says, or nothing at all |
| Database.Database.InsertPendingObject | internal/database/objects.go:126-136 | inserts a pending row only if the oid has none |
| Database.Database.GetRepoObjectByOid | internal/database/objects.go:30-49 | finds exactly the verified row linked to the repository |
| Database.Database.GetObjectsByOids | internal/database/objects.go:200-218 | the map has exactly the verified rows of the requested oids, whatever order the query returns them in |
| Database.Database.GetRepoObjectsByOids | internal/database/objects.go:223-246 | the same, restricted to linked rows |
| Database.CollectByOid | internal/database/objects.go:213-216 | the loop keeps the last row of each oid and nothing else |
| Database.Database.SweepOrphanObjects | internal/database/objects.go:257-299 | deletes and returns exactly the selected rows, or nothing when a statement fails |
| Database.Database.SweepUnreferencedObjects | internal/database/objects.go:308-349 | the same for the other selection |
| Database.Database.GetObjectByOid | internal/database/objects.go:54-67 | finds the row of the oid, verified or pending |
| Handlers.ServeUploadProxy | cmd/lfsd/lfs.go:258-296 | readers, Put, LinkObject and the loser's Delete, for any faults, leave the tables, the files and the status of a run of the request in the state machine |
| Handlers.ServeUploadPresign | cmd/lfsd/lfs.go:298-331 | lookup, pending insert and signing do the same |
| Handlers.ServeVerifyProxy | cmd/lfsd/lfs.go:470-490 | the status is that of the request's step, and nothing changes |
| Handlers.ServeVerifyPresign | cmd/lfsd/lfs.go:492-527 | Head, VerifyObject and the loser's Delete leave the tables, the bucket and the status of a run of the request |
| Handlers.PutLooksAtomic | internal/storage/filesystem.go:51-91 | a whole Put, for any faults, has the effect on the backend's objects and the outcome of the two atomic steps |
| Handlers.ThreeStepsAreARun | cmd/lfsd/lfs.go:492-527 | the steps of a request on its own are events of a run in which nothing else happens |
| Batch.ServeBatch | cmd/lfsd/lfs.go:80-211 | rejects what Admit rejects without touching the tables; otherwise answers and links, object by object, as the state machine's rounds do |
| Batch.DownloadBatchMeaning | cmd/lfsd/lfs.go:159-169 | one entry per object in order with its oid and size, an action exactly if the object is downloadable, 404 exactly if no verified row is linked, 422 otherwise, and no change |
| Batch.LinksOneMore | cmd/lfsd/lfs.go:177-185 | linking a known row with the placeholder adds the link and its count and leaves no other trace |
| Batch.UploadBatchMeaning | cmd/lfsd/lfs.go:170-203 | over a whole upload batch, duplicates included, the tables change by the links and counts of exactly the verified same-size objects within the limit; each entry is answered by what was known before |
| Janitor.New | internal/janitor/janitor.go:30-41 | keeps the first backend of every scheme and no other |
| Janitor.KeptIsReachedIff | internal/janitor/janitor.go:116-123 | a backend's URIs are routed to it by deleteByURI exactly if it comes first among those with its scheme |
| Janitor.KeptIsSweptIff | internal/janitor/janitor.go:91-102 | the loop over presigners deletes an orphan's object in a bucket exactly if that bucket comes first among the backends with its scheme |
| Janitor.Janitor.DeleteByUri | internal/janitor/janitor.go:116-123 | deletes through the first backend whose scheme is a prefix, and reports a missing owner or a refusal |
| Janitor.Janitor.DeletePresigned | internal/janitor/janitor.go:91-102 | deletes the object's presign URI in every bucket and fails if any of them does |
| Janitor.Janitor.DeleteObjects | internal/janitor/janitor.go:78-114 | deletedCount + failedCount is the number of objects, failedCount the number with a failed call, and exactly the successful deletes leave the store |
| Janitor.Janitor.Sweep | internal/janitor/janitor.go:63-75 | both passes delete the selected pending rows and their presign objects; with exact counts the second does nothing |
| Janitor.FailedCountMeaning | internal/janitor/janitor.go:103-107 | the count is the number of objects with a failed call |
| Janitor.OnlyOwnBlobsGo | internal/janitor/janitor.go:91-102 | for any failures, blobs of every object that was not swept are unchanged in every backend |
| Janitor.OrphanFailsIff | internal/janitor/janitor.go:97-101 | with well-formed backends an orphan is counted as failed exactly if one of its own deletes fails, and is gone from every bucket otherwise |
| Janitor.PassIsTheMachines | internal/janitor/janitor.go:78-114 | the loops leave the store that the state machine's deletes leave |
| Allowlist.NormalIgnoresBlanks | internal/forge/forge.go:113 | blanks around an entry do not matter |
| Allowlist.EntryAcceptedIff | internal/forge/forge.go:153-173 | the parser accepts exactly plain paths and plain paths followed by the tree suffix |
| Allowlist.New | internal/forge/forge.go:110-131 | compilation fails exactly if an entry is malformed, with the error of the first one; otherwise the result holds exactly the literal paths and tree prefixes |
| Allowlist.Allow | internal/forge/forge.go:135-148 | true exactly for the nil list, a literal path, or something below a prefix |
| Allowlist.CompiledPermits | internal/forge/forge.go:110-148 | the compiled matcher agrees with the plain reading of the entries |
| Allowlist.Decide | internal/forge/forge.go:110-148 | compiling and asking together decide the plain reading, for every list and repository |
| Allowlist.OrderDoesNotMatter | internal/forge/forge.go:112-126 | neither order nor repetition of entries matters |
| AuthCache.CachedIff | cmd/lfsd/auth.go:111-128 | a decision is cached exactly without expiry signal or with more than the margin left, for a positive time up to the cap |
| AuthCache.EndsInTimeIff | cmd/lfsd/auth.go:111-128 | an entry written late still ends before the token exactly if margin or cap absorb the delay |
| AuthCache.PossibleIff | cmd/lfsd/auth.go:24-49 | the requests that reach the cache are those for a site the configuration lets through, with a user without colon and a token |
| AuthCache.SharedKeysNest | cmd/lfsd/auth.go:89-92 | two requests share a key text only if their sites nest |
| AuthCache.NestedSitesCollide | cmd/lfsd/auth.go:89-92 | if one site nests in another, any credentials for the one share their key with some for the other |
| AuthCache.KeysApartIff | cmd/lfsd/auth.go:89-92 | the keys of all possible requests are distinct exactly if no site that the configuration lets through nests in another |
| AuthCache.JoinedIsInjective | cmd/lfsd/auth.go:89-92 | so the four values can be read back when host, repository and user have no colon |
| AuthCache.ColonsCollide | cmd/lfsd/auth.go:89-92 | a host with a port shares keys with another host, and a repository with a colon with one of the same host |
| AuthCache.TreesNest | internal/forge/forge.go:135-148 | a host that allows every repository, or a tree of them, has two sites that nest |
| AuthCache.HitAgrees | cmd/lfsd/auth.go:51-56 | with distinct keys a hit is a permission the forge granted for these four values |
| AuthCache.NextAgrees | cmd/lfsd/auth.go:51-81 | with distinct keys every event of every request keeps cache and answers in agreement with the forge, and in time as long as no write is late |
| AuthCache.CacheAgreesWithForge | cmd/lfsd/auth.go:51-83 | with no nested sites, over every run a served request passed the host, credential and allowlist checks and its permission was granted for the same four values; if no write was late, a cached one is not served after the token expired |
| AuthCache.ServesAnother | cmd/lfsd/auth.go:51-83 | of two possible requests that share a key, the second is served the permission of the first |
| AuthCache.GrantsServeTheirOwnIff | cmd/lfsd/auth.go:51-83 | every served request of every run has a grant for its own four values exactly if no site nests in another |
| AuthCache.LateIff | cmd/lfsd/auth.go:73-81 | a write can be served past the token's life exactly if it is late |

## Left out

- HTTP, JSON, routing, headers and logging: a handler is its input values, its steps and a result code.
- The download handler is steps of the state machine only; it changes nothing.
- The SQL driver and PostgreSQL itself: the statements of `internal/database/objects.go` act on a table model with the unique indexes, and the answer of a SELECT is a parameter constrained by its WHERE, ORDER BY and LIMIT.
- Primary keys drawn by a transaction that is rolled back: the atomic transactions give the key back, the statement level keeps it used.
- GitHub and GitLab calls: the forge is any source of permissions and remaining lifetimes.
- AWS SDK, request signing and URL expiry: a presigned PUT stays usable for ever, which only adds runs.
- A failed write to a temporary file stores none of its bytes; the file is removed in any case.
- Real SHA-256, hex and base64, and integer widths of sizes and durations.
- Windows paths and the working directory: a URI without an absolute path, which the code resolves against its working directory, is refused.
- Characters beyond one byte: trimming and lowering are ASCII.
- Filesystem.FilesystemBackend.Delete: a URI with an authority, whose path the code would still resolve, is refused here; no filesystem backend builds one.
- Configuration loading, formatPGInterval and the janitor's ticker: an age is an integer and a sweep may start at any time.
- Unlinking of repositories: no code does it.
- Isolation.CountsAreBounded: bounds the count instead of giving it exactly, because VerifyObject of a verified row takes no lock; Isolation.AlwaysExactIff says when it is exact.
- Presign.UndisturbedBucketsAreSafe: takes Head with VerifyObject, and a sweep with its deletes, as undisturbed, because Witnesses.LateDeleteLosesBytes and Witnesses.StaleMarkLosesBytes show it false otherwise; Presign.AlwaysKeptIff says exactly when it holds.
- FileStore.FinalFilesAreWhole: excludes runs in which a rename moves another Put's file, because FileStore.ReusedNameCorrupts shows one that spoils a final file; FileStore.AlwaysWholeIff says exactly which runs do.
- Atomicity.JointRunIsARun: one filesystem backend is on its disk, the others are as in the state machine; and runs in which a rename moves another Put's file are excluded.
