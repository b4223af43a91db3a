# STRATA version store: a verified model

STRATA keeps large binary projects as commits. Every commit carries a complete snapshot of
its project (file to version), branches are refs to commits, a version is a list of chunk
hashes, and chunks live in an object store with a reference count. Clients push, branch,
merge, lock and pull; each request is a series of separate database statements with no
transaction around them (internal/service/version.go:57-60).

This project models that store and proves what survives of its promises when requests
overlap and stop half way, and what more holds when they do not overlap:

- **At every interleaving of statements, with any request stopping before any of its
  statements**: a branch always points at a stored commit whose whole snapshot is written and
  never changes again; its tree is its parent's with the pushed files over it, and its chunks
  are counted; everything in its history was once a branch head; ancestry has no cycles;
  snapshots agree with replaying history; every chunk row has its blob, and every reference
  count is exactly the number of pushes that counted it.
- **With requests one at a time, each still free to stop anywhere**: no commit drops a file an
  ancestor had, so the merge, which never removes a key, *is* the textbook three-way merge;
  every version comes from the commit's own history; branches only move forward; merging
  again changes nothing; a held lock stops everyone else's pushes.
- **Where the second list needs the "one at a time"**, with the exact condition in its place:
  from every reachable state, two overlapping pushes lose a published commit; a branch keeps
  its history exactly when each statement that sets it was built on the commit the branch was
  at just then. Two overlapping acquires are both told they hold the lock; a user who is told
  so holds it exactly when no other user's row was there at the insert. A push that lands
  between a merge's analysis and its second reading becomes a parent of the merge commit while
  its file is missing from the merge; a merge whose second reading returns the heads it
  analysed is the three-way merge exactly when the source alone deleted no file.

## How it is laid out

| file | what it holds |
|---|---|
| `Tables.dfy` | the database as a value: one map per table; for each writing statement what its keys and foreign keys demand, and the tables after it |
| `Ancestry.dfy` | reachability through `parent_ids`, the two recursive queries as worklist loops, the merge base |
| `Merging.dfy` | classification, resolutions, the merged tree, and the three-way merge it is measured against |
| `Requests.dfy` | each request as a process that makes one statement per step; the machine that interleaves them; runs and serial runs |
| `Safety.dfy`, `SafetyProof.dfy`, `SafetyRuns.dfy` | the invariant of all interleavings, its proof step by step, the theorems over runs |
| `Serial.dfy`, `SerialProof.dfy`, `SerialRuns.dfy` | the same for serial runs |
| `Counts.dfy`, `LockSafety.dfy` | chunks and counts, locks |
| `Stamps.dfy` | stamps rise along every branch's history, at every interleaving, so merge bases are best common ancestors |
| `RefMoves.dfy` | exactly when a branch keeps its history |
| `Followed.dfy` | one merge or push followed through a run in which others interleave with it |
| `Witnesses.dfy`, `Swallowed.dfy` | the runs in which overlap does harm |
| `Store.dfy` | the tables as a class, one method per statement; any write may fail |
| `Solo.dfy`, `Services.dfy`, `Chunks.dfy` | the services as methods over that class, in the order in which they issue their statements; each returns the run of its process, so all of the above applies to it |
| `Pull.dfy` | the diff a client pulls by, and why it can rebuild every listed file |
| `RateLimiter.dfy` | the per-key request limiter (not wired into the server) |

`Requests.PushStep` follows internal/handler/push.go:109-136 and
internal/service/version.go:61-194 statement by statement, `MergeStep` internal/service/merge.go:37-302,
`BranchStep` internal/handler/merge.go:47-75, `UploadStep` internal/service/chunk.go:60-91 and
`LockStep` internal/service/lock.go:28-61. A step that the code refuses has no successor.

The theorems about runs take states and the actions between them; `Trail` remembers which
request made each commit, which commits were heads, and which are written and counted. It
only records: no step looks at it.

## What is assumed

- The database starts empty, so no commit predates snapshots (internal/service/version.go:109).
- There is one clock: a stamp taken now is later than every `created_at` already stored. Ids
  need no freshness assumption, because primary keys refuse a taken id and the request then stops.
- Reads do not fail. The code swallows read errors at internal/service/version.go:64-74 and
  104 and internal/handler/push.go:116. Writes may fail or never run; the promises that an
  allowed request succeeds are made for a store marked `reliable`, where every write that the
  schema allows goes through and every generated id is new.
- Each SQL statement is atomic, with the keys and foreign keys of
  migrations/001_initial.up.sql:58-104 and migrations/002_branching.up.sql:15-35.
- SHA-256 is an arbitrary function. Only `Pull.PullRebuildsFiles` assumes that it has no collisions.
- The empty version id is number 0 and is never a stored version.

## Where the code and its comments disagree

- internal/service/merge.go:141-142 says that a deletion on the source side propagates. The
  code starts from the target's snapshot and never removes a key.
  `Merging.DeletionDoesNotPropagate` gives the input, `Swallowed.DeletionIsReached` a run from
  the empty database that comes to such an input, and `Merging.MergedTreeIsThreeWayIff` the
  exact condition; serial runs always meet it, because nothing ever deletes a file.
- internal/service/merge.go:185 says that analysing again prevents races, but the refs are
  read once more after it. `Swallowed.SwallowedPush` gives the run in which a push is lost
  between the two readings; `Followed.MergeWritesWhatItSaw` says what a merge writes whatever
  the readings return, and `Followed.SteadyMergeIsThreeWayIff` when that is the three-way
  merge if they agree.
- internal/store/postgres/commit.go:145-146 speaks of a breadth-first search; the query takes
  the common ancestor with the latest `created_at`.
- internal/middleware/ratelimit.go:9 calls the limiter a sliding window. Its windows are
  fixed, so an interval can hold almost twice the limit, and no more.
- internal/service/version.go:211 lists an action "deleted" that no diff contains.

## Model

| member | source | states |
|---|---|---|
| Ancestry.WalkAncestors | internal/store/postgres/commit.go:184-190 | the recursive walk ends and yields exactly the commits reachable through parent_ids |
| Ancestry.IsAncestor | internal/store/postgres/commit.go:181-195 | true exactly when the ancestor is the descendant or reachable from it |
| Ancestry.FindMergeBase | internal/store/postgres/commit.go:147-178 | fails exactly when the two histories are disjoint, otherwise a common ancestor with the latest created_at |
| Ancestry.MergeBaseIsBest | internal/store/postgres/commit.go:144-171 | the base lies in both histories and no other common ancestor descends from it, if stamps rise along one of them |
| Ancestry.MergeBaseOfAncestor | internal/store/postgres/commit.go:167-171 | when the source head is in the target's history the search finds the source head and nothing else |
| Stamps.HistoryRises | internal/service/version.go:77-96 | at every interleaving created_at rises along a branch's history |
| Stamps.BranchMergeBaseIsBest | internal/store/postgres/commit.go:147-178 | at every interleaving, what the search finds for two branches is in both histories and no other common ancestor descends from it |
| Ancestry.MergeBaseIsStable | internal/store/postgres/commit.go:152-171 | commits added later never change the base of two existing heads |
| Ancestry.ReachesIsPartialOrder | internal/store/postgres/commit.go:152-166 | with stamps rising along parent edges, ancestry is a partial order |
| Ancestry.AcyclicGrows | internal/service/version.go:80-96 | a new commit that names only stored parents closes no cycle |
| Merging.AnalyzeFile | internal/service/merge.go:110-173 | one turn of the switch extends a right analysis by one file |
| Merging.AnalyzeSnapshots | internal/service/merge.go:91-176 | whatever order the maps are visited in, both lists, the count and every conflict with its base, source and target version are what the three snapshots say |
| Merging.AnalysisDescribes | internal/service/merge.go:110-176 | said of the three maps alone: a file only one side changed is in that side's list with its version, the count is of the files both sides agree on, and each file both sides changed differently is a conflict with the version of each map |
| Merging.TakingOneSide | internal/service/merge.go:166-173 | a client that answers every conflict with its source version is accepted and gets the source's version at each; the same of the target |
| Merging.AnalysisIgnoresOrder | internal/service/merge.go:110-176 | any two visiting orders agree on type, count and all entries; the type is conflict exactly when one is listed |
| Merging.AnalysisPartitionsFiles | internal/service/merge.go:98-176 | each file of the three snapshots is counted once, the one-sided deletions being what the analysis leaves out |
| Merging.ResolutionsPermuteConflicts | internal/service/merge.go:207-226 | the length check and the coverage loop force each conflicted file to be resolved exactly once, to one of its three versions, and no other file |
| Merging.AcceptedIffAnswers | internal/service/merge.go:207-226 | the checks pass exactly the lists with one entry for each file both sides changed differently, for the source's, the target's or the base's version, and no other entry |
| Merging.MergedTreeAt | internal/service/merge.go:228-259 | what the merged snapshot holds at each file: the source's version where only it changed, the choice where both did, the target's elsewhere |
| Merging.MergedTreeIsThreeWayIff | internal/service/merge.go:228-259 | the merged snapshot is the textbook three-way merge exactly when no file was deleted on the source side alone and no conflict was resolved to the empty version |
| Merging.ThreeWayMergesFiles | internal/service/merge.go:135-161 | what the three-way merge is, of the maps alone: an unchanged side yields to the other, agreeing sides stand, a clash takes the answer given for it |
| Merging.DeletionDoesNotPropagate | internal/service/merge.go:135-142 | a file deleted by the source and untouched by the target stays in the merged snapshot |
| Merging.MergingTheBaseIsNoOp | internal/service/merge.go:110-176 | a source equal to the base yields a clean analysis with nothing to take and the target's tree |
| Merging.FastForwardIsMergeFromTarget | internal/service/merge.go:52-64 | with the target as base the merge is clean, and gives the source's tree exactly when the source has all the target's files |
| Merging.CleanMergeIsSymmetric | internal/service/merge.go:228-249 | clean merges in both directions give one tree exactly when neither side deleted a file alone |
| SafetyProof.StepKeeps | internal/service/version.go:61-194 | every statement of every request keeps the invariant of all interleavings and what the request knows |
| Safety.StepGrows | internal/service/version.go:157-165 | no statement changes or removes a stored row or a written snapshot |
| SafetyRuns.RunsAreSafe | internal/service/version.go:57-60 | the invariant holds in every state of every run, however requests interleave and wherever they stop |
| SafetyRuns.RunsOnlyAdd | internal/store/postgres/commit.go:69-92 | between any two moments of a run commits stay and written snapshots stay as they are |
| SafetyRuns.BranchHeadsAreWhole | internal/service/version.go:157-187 | a branch points at a stored commit with its final snapshot; a pushed one is counted, each pushed path has a version of it with the manifest of the path's last entry, and every other file is the parent's, version for version |
| SafetyRuns.AncestryHasNoCycles | internal/store/postgres/commit.go:152-166 | in every run all parents exist and ancestry has no cycles, whatever the stamps |
| SafetyRuns.HistoryIsFormerHeads | internal/service/version.go:62-84 | every commit in a branch's history was once pointed at by a branch of the project, and none was pushed without a ref |
| SafetyRuns.HeadsWerePointedAt | internal/store/postgres/commit.go:213-222 | a recorded head was the value of a ref at some earlier moment |
| SafetyRuns.SnapshotIsHistory | internal/service/version.go:100-165 | a branch made of single-parent pushes shows for each path what replaying all file lists shows, the last entry winning |
| Serial.SnapshotsKeepAncestorFiles | internal/service/version.go:100-155 | a head's snapshot has every file of each of its ancestors |
| SerialProof.StepKeepsSerial | internal/service/merge.go:184-302 | every statement of a request that runs alone keeps the serial invariant |
| SerialRuns.SerialRunsKeep | internal/service/merge.go:184-302 | the serial invariant holds in every state of every serial run, crashes included |
| SerialRuns.MergesAreThreeWay | internal/service/merge.go:228-292 | each merge commit in a branch's history is the three-way merge of its two parents over a best common ancestor, also said file by file; each conflict was answered once with one of its file's stored versions, and nothing else was |
| SerialRuns.NoFileIsDropped | internal/service/version.go:100-155 | along a branch's history no commit lacks a file that an ancestor had |
| SerialRuns.VersionsComeFromHistory | internal/service/merge.go:212-259 | every snapshot row is a version of that file made by the commit or an ancestor of it |
| SerialRuns.BranchesOnlyMoveForward | internal/service/version.go:174-187 | each later head of a branch is, or descends from, each earlier one |
| SerialRuns.RemergeChangesNothing | internal/service/merge.go:52-70 | right after a merge, merging again is no fast-forward, finds the source head as base and nothing else, is clean with nothing to take, and writes the target's tree |
| SerialRuns.MergingAnAncestorChangesNothing | internal/service/merge.go:52-70 | the same, at any moment of any run, for any source head that the target's history already contains |
| SerialRuns.MergeIsRefusedOnlyForEmptyVersion | internal/service/merge.go:216-225 | an accepted merge gets past writing its snapshot exactly when no conflict is resolved to the empty version |
| SerialRuns.CleanMergesCommute | internal/service/merge.go:110-176 | source into target and target into source find one base, and when clean write one tree |
| SerialRuns.FastForwardAgreesWithMerge | internal/service/merge.go:52-64 | where a fast-forward applies, the general merge from the target as base gives the source's tree too |
| Counts.ChunksAreBackedAndCounted | internal/service/chunk.go:60-91 | at every moment a chunk row has a blob with its hash, and its count is the number of pushes that counted it since it was stored |
| Counts.CountGrowsByIncrements | internal/service/version.go:154-172 | in every run a count grows between two moments by exactly the increments taken in between by pushes that list the chunk in some file |
| Requests.HashesAreListed | internal/service/version.go:112-154 | the hashes collected for counting are those of all pushed files, and no others |
| Counts.CountCounts | internal/store/postgres/chunk.go:67-75 | one increment counts a push once for each stored chunk that some file of it lists, however often it repeats the hash |
| Counts.UploadKeepsCounts | internal/store/postgres/chunk.go:19-27 | an upload starts a new row at zero and leaves every existing count |
| Counts.MergeKeepsChunks | internal/service/merge.go:261-301 | a merge touches no chunk row and no blob |
| Counts.ZeroCountMeansUnused | internal/service/version.go:167-172 | a stored chunk whose count is still zero is in no file of any push whose counting has run since the chunk was stored |
| LockSafety.LockRowStays | internal/store/postgres/lock.go:23-64 | under every interleaving a lock row stays its owner's until the owner releases it or someone forces it |
| LockSafety.LockedPathStopsOthers | internal/handler/push.go:109-134 | without overlap, from being told the lock is theirs until it is freed, the row is the user's and no other user's push of the path is past the gate |
| LockSafety.ToldHoldsIff | internal/store/postgres/lock.go:23-41 | under every interleaving, a user told that the lock is theirs holds the row exactly when no other user's row was there just before, until somebody frees it |
| RefMoves.StepKeepsIff | internal/store/postgres/commit.go:213-222 | after any statement of any request a branch reaches its old head exactly when the statement does not set it or sets it to something built on that head |
| RefMoves.BranchKeepsHistoryIff | internal/service/version.go:174-187 | in every run a branch keeps its history between two moments exactly when each statement in between that sets it was built on the commit it was at |
| Followed.MergeWritesWhatItSaw | internal/service/merge.go:184-292 | under every interleaving a published merge holds its analysis of the heads it first read, over the tree of whatever the target had become |
| Followed.MergeKeepsFilesIff | internal/service/merge.go:184-292 | under every interleaving a published merge has every file of its first parent, and every file of its second exactly when the first parent has it or the first reading saw the source change it |
| Followed.SteadyMergeIsThreeWayIff | internal/service/merge.go:185-259 | when the second reading returns the analysed heads, the tree about to be written is their three-way merge exactly when the source alone deleted no file and no conflict takes the empty version |
| Followed.PublishedMergeIsThreeWayIff | internal/service/merge.go:185-301 | the same of the snapshot of a published merge commit |
| Followed.PushCarriesParentTree | internal/service/version.go:100-165 | under every interleaving a push, with a ref or without, whose parent's snapshot was written when read, makes a commit with its parent's tree under its own files |
| Swallowed.SwallowedPush | internal/service/merge.go:185-192 | from every reachable state with two branches to merge, a push of a new file to the source can become a parent of the merge commit while the merge's tree lacks the file |
| Swallowed.LostFileMeetsMerge | internal/service/merge.go:135-142 | after that, one more push and a merge back meets a file deleted by the source alone, and every merge of it keeps the file against the three-way merge |
| Swallowed.DeletionIsReached | internal/service/merge.go:135-142 | some run from the empty database comes to such a merge |
| Witnesses.CheckedPushCanFinish | internal/service/version.go:77-193 | whatever others did meanwhile, a push that passed its parent check can run to its end and set the branch |
| Witnesses.OverlappingPushesLoseACommit | internal/service/version.go:62-75 | from every reachable state two matching pushes can both succeed while the branch no longer reaches the first |
| Witnesses.OverlappingAcquiresBothSucceed | internal/store/postgres/lock.go:34-40 | from every reachable state two users can both be told they hold a free lock; the row is the first one's |
| Stores.Store.constructor | migrations/001_initial.up.sql:58-104 | a new store has empty tables |
| Stores.Store.CreateCommitRow | internal/store/postgres/commit.go:19-26 | inserts the row if the id is free and the first parent stored, otherwise changes nothing |
| Stores.Store.SetCommitFiles | internal/store/postgres/commit.go:69-92 | overlays the rows if each names a stored file and version, otherwise changes nothing; an empty batch is not sent |
| Stores.Store.GetCommitSnapshot | internal/store/postgres/commit.go:95-116 | lists each row of the snapshot once, in no promised order |
| Stores.Store.GetCommitSnapshotWithPaths | internal/store/postgres/commit.go:119-142 | the same for the rows whose file is stored |
| Stores.Store.GetRef | internal/store/postgres/commit.go:199-211 | the commit of the ref, or none |
| Stores.Store.UpsertRef | internal/store/postgres/commit.go:213-222 | sets the ref if the commit is stored, otherwise changes nothing |
| Stores.Store.Upsert | internal/store/postgres/file.go:19-28 | a known path keeps its id, a new path gets the given one |
| Stores.Store.GetByPath | internal/store/postgres/file.go:30-41 | the id of the path, or none |
| Stores.Store.CreateVersionRow | internal/store/postgres/file.go:43-50 | inserts the version if its id is free and its file and commit are stored |
| Stores.Store.GetVersionsByCommit | internal/store/postgres/file.go:52-73 | each version row that the commit itself created, once |
| Stores.Store.InsertChunkRow | internal/store/postgres/chunk.go:19-27 | a new hash starts at zero, a stored one is left alone |
| Stores.Store.IncrementRefCount | internal/store/postgres/chunk.go:67-75 | adds one to each stored chunk that is listed at least once, and leaves the others |
| Stores.Store.CheckExisting | internal/store/postgres/chunk.go:44-65 | a stored hash comes back once per time it is listed |
| Stores.Store.InsertLockRow | internal/store/postgres/lock.go:34-40 | inserts where there is no row, and succeeds where there is one |
| Stores.Store.ReleaseLock | internal/store/postgres/lock.go:44-64 | deletes the row when forced or the user's own, and only then; on a reliable store it always does; every other row stays |
| Stores.Store.CheckPaths | internal/store/postgres/lock.go:113-137 | exactly the locks of other users on the given paths |
| Solo.SoloRunStaysHealthy | internal/service/merge.go:184-302 | a request served alone on a healthy database leaves it healthy wherever it stops |
| Solo.PushCanWriteTree | internal/service/version.go:157-165 | the tree a push to a branch has built always fits the schema |
| Solo.MergeCanWriteTree | internal/service/merge.go:284-292 | a merge tree fits the schema exactly when no conflict was resolved to the empty version |
| Solo.ServedPushTakesEffect | internal/service/version.go:61-194 | a served push to a branch leaves it at the new commit, whose tree is its parent's with the pushed files over it, path by path and version for version |
| Solo.ServedMergeIsThreeWay | internal/service/merge.go:184-302 | a served merge publishes the three-way merge of the two heads, also said file by file, and its conflicts were answered |
| Services.CreateCommit | internal/service/version.go:61-194 | makes exactly the statements of a push; a conflict exactly when the parent does not match the branch, changing nothing; on a healthy, reliable store a matching push to a branch goes through; once served, every stored chunk of every pushed file has one count more and every other as many |
| Services.OpenCommit | internal/service/version.go:77-98 | the commit row with its parent and a stamp after all others; on a reliable store it goes in when the parent is stored |
| Services.CheckParent | internal/service/version.go:62-75 | true exactly when no branch is named, or the branch is there and at the parent, or is not there and no parent is given |
| Services.WriteFile | internal/service/version.go:115-155 | one turn of the file loop: file id, version row, snapshot entry |
| Services.FinishPush | internal/service/version.go:157-187 | snapshot, then counts, then ref; once served, every stored chunk that some file lists has one count more and every other as many |
| Services.PushCommit | internal/handler/push.go:109-143 | refused exactly when another user holds a lock on a pushed path; otherwise a run of CreateCommit that on a healthy database takes effect in full, each pushed path at its last manifest and every other file as in the parent; on a healthy, reliable store it succeeds exactly when the gate is open and the parent matches |
| Services.Analyze | internal/service/merge.go:37-176 | which of its errors it returns and when; otherwise a fast-forward exactly when the target is in the source's history, or a right classification over the merge base |
| Services.AnalyzeMerge | internal/handler/merge.go:81-113 | on a healthy database the report says of the snapshots of the two heads and of their base what they are: both lists, the count, each conflict with its three versions |
| Services.CheckResolutions | internal/service/merge.go:206-226 | passes exactly the lists that are as long as the conflicts and cover each with one of its versions; unresolved when the lengths differ or the first conflict not covered has no resolution, invalid when that one has a foreign version |
| Services.MergeTrees | internal/service/merge.go:228-259 | the target's snapshot, overlaid with the source's changes and then the resolutions |
| Services.WriteMerge | internal/service/merge.go:261-301 | commit with both parents, snapshot, ref, as the merge's own run; on a sound, reliable store it succeeds exactly when no empty version was chosen |
| Services.MoveForward | internal/service/merge.go:194-204 | sets the target to the source head, or changes nothing |
| Services.MergeDiverged | internal/service/merge.go:206-301 | refused as unresolved or as invalid exactly when the resolutions are; otherwise the merge's own run |
| Services.Execute | internal/service/merge.go:184-302 | why each error is returned; otherwise the target moves to the source head exactly when a fast-forward applies, or to a new commit with the target's and the source's head as parents, merged over their merge base |
| Services.ExecuteMerge | internal/handler/merge.go:116-159 | the same, and on a healthy database the new snapshot is the three-way merge; on a healthy, reliable store a merge is served whenever the source is ahead, or the client has answered each conflict of the three snapshots with one of its stored versions |
| Services.CreateBranch | internal/handler/merge.go:47-75 | sets the new ref, and no other, to the head of an existing branch, or changes nothing; refused exactly when the branch to start from is missing or the name is taken |
| Services.AcquireLock | internal/service/lock.go:28-56 | refused exactly when another user holds the path; a served acquire leaves the row with the user and every other row as it was |
| Services.InsertLockIfFree | internal/store/postgres/lock.go:23-41 | the store's own check, then the insert |
| Services.Release | internal/service/lock.go:59-61 | on a reliable store served exactly when forced or the user's own; a served release removes that row and no other, a refused one changes nothing |
| Chunks.Upload | internal/service/chunk.go:60-91 | size and hash are refused exactly when wrong, before any write; every stored chunk stays backed and no count changes, even when it stops half way |
| Chunks.Download | internal/service/chunk.go:94-107 | not found exactly when there is no row; otherwise, with backed rows, bytes with that hash |
| Chunks.CheckExisting | internal/service/chunk.go:38-57 | the two lists together are the request again; the needed ones are the hashes not stored, in order; existing is never longer than the request |
| Chunks.LackingCounts | internal/service/chunk.go:49-54 | filtering keeps every repeat of a missing hash and none of a present one |
| Chunks.LackingSplits | internal/service/chunk.go:49-54 | filtering goes hash by hash, so the order is kept |
| Pull.ComputeDiff | internal/service/version.go:218-266 | one entry for each version row of the target commit that is listed, with the row's file and whole manifest and, with every repeat, exactly the chunks that no row of the source commit lists; a row is left out only when it needs none; a fresh clone lists every row with its whole manifest needed |
| Pull.DiffCovers | internal/service/version.go:243-248 | an entry needs nothing the client holds, and every chunk of its manifest is needed or held |
| Pull.PullRebuildsFiles | internal/service/version.go:218-266 | in any state of any run, a client with the source rows' chunks has, for each stored file of the target commit, an entry whose downloads are there and with which its manifest gives the file byte for byte, or needs no download |
| RateLimiting.RateLimiter.Allow | internal/middleware/ratelimit.go:50-70 | the verdict is the specification's for the whole trace served so far |
| RateLimiting.VerdictByOpening | internal/middleware/ratelimit.go:50-70 | a key's first request is allowed, a later one exactly when the interval since its window's opening has passed or fewer than the limit were allowed since |
| RateLimiting.RefusalsDoNotExtend | internal/middleware/ratelimit.go:50-70 | once the clock is more than the interval past a key's allowed requests it is allowed again, whatever was refused in between |
| RateLimiting.IntervalIsBounded | internal/middleware/ratelimit.go:50-70 | a closed interval of the limiter's length holds at most 2 max(1, limit) - 1 allowed requests of a key |
| RateLimiting.BoundIsReached | internal/middleware/ratelimit.go:50-70 | for every positive limit and interval some trace reaches that bound |
| RateLimiting.OtherKeysDoNotMatter | internal/middleware/ratelimit.go:50-70 | a key's verdicts are those it would get alone |

## Left out

- Followed.SteadyMergeIsThreeWayIff: speaks of merges whose second reading returns the analysed heads; where it does not, `Followed.MergeWritesWhatItSaw` says what is written at each file and `Followed.MergeKeepsFilesIff` when a file of a parent is lost.
- Stores.Store.GetCommitSnapshotWithPaths: the path column and the order by path, which only label entries.
- Execute after Analyze: where a branch vanishes between the two readings the code dereferences nil; no modelled request removes a ref, so the method returns "branch not found" there.
- Pull.ComputeDiff: speaks of the version rows a commit created itself, as the code does, not of its whole snapshot, so a merge commit lists nothing. The download size, which the code never fills in, is not modelled, and entries carry the file id, as in the code.
- Pull.PullRebuildsFiles: asks that the file's chunks are stored, because a push is not refused when they are not.
- Stores.Store.CreateCommitRow: the foreign keys to projects and users; users and projects are not modelled, and a row refused for them is a write that fails, which every write may.
- Stores.Store.SetCommitFiles: takes the rows as a map. The code copies its map into a slice first; the order of that slice does not matter to the statement.
- Services.CreateCommit: does not promise that a push without a ref goes through, because its parent is not checked and may not exist.
- Authors and messages of commits, paths and branch names inside analyses, the branch, holder name and time of a lock: labels that no decision depends on.
- Checks of the handlers for empty names, messages and file lists: the model accepts these requests too, so the theorems cover more requests than the server lets in. The default of `main` as the branch to start from is left to the caller.
- Refs of type tag, project deletion with its cascades, `DecrementRefCount` and blob deletion: no service calls the last two, and deletion would only weaken what stays stored.
- Listings and pagination of commits, refs, files and locks: they only read.
- Authentication, HTTP decoding and status codes, configuration, logging.
- The limiter's mutex: a call to `Allow` is one step. Its middleware only picks the key.
