# Client-side coherence of an NFS client, modelled and proved in Dafny

The NFS client keeps many caches and counters that must agree with a simple specification although
replies arrive out of order and threads interleave. This project models that logic and proves what
it promises, over every input, every interleaving and every run:

| part | modules |
|---|---|
| delegations: list, inode pointers, references, marks, recalls, put-off returns, active counter, dentry tags | `Delegation`, `DelegationCoherence`, `DelegationCount`, `DelegationMarks`, `DelegationDelayed`, `DelegationPursuit`, `DelegationFlags`, `DelegationRecalls`, `DelegationWalk`, `DelegationPlaces`, `DelegationTags`, `DelegationTagLog`, `DelegationClears`, `DelegationServer` |
| readdir page cache | `Readdir`, `ReaddirTurns`, `ReaddirLoops` |
| out-of-order change tracking and data invalidity | `OutOfOrder`, `ChangeTracking`, `DataValidity`, `NfsInode` |
| access cache | `AccessTree`, `AccessCache`, `AccessRuns`, `AccessLog` |
| extended attribute cache | `XattrCache`, `XattrEntries`, `XattrCaches`, `XattrRuns`, `XattrLog`, `XattrTable` |
| direct I/O byte accounting | `DirectIo` |
| buffered/direct exclusion | `IoExclusion`, `IoLog` |
| callback compounds and back-channel slots | `Callback`, `CallbackRuns`, `CallbackAnswers` |
| client record sharing | `ClientSharing`, `ClientUniqueness`, `ClientLog` |
| LISTXATTRS size bound and decoder | `ListXattr`, `ListErrors` |

`Lists` and `Wrappers` hold what several parts share. `dafny verify dfyconfig.toml` checks all of it.

How the source is represented:

- A section under a spinlock, mutex or semaphore is one atomic step. Steps of any number of threads
  interleave freely. A run is any sequence of events; an event that is not possible where it stands
  is skipped.
- Server replies, allocation results, `igrab()` results, shrinker calls, clocks and attribute
  comparisons made elsewhere are inputs, so the theorems hold for all their outcomes.
- Object identities are not reused.
- Code that updates fields or arrays in loops is a class with methods (`NfsInode.Inode`,
  `ReaddirLoops.PageCache`, `ReaddirLoops.Descriptor`, `DelegationServer.Server`,
  `DirectIo.DirectReq`, `AccessRuns.Cache`, `XattrTable.Table`, `ClientUniqueness.Net`, the methods
  of `ListXattr`); each method is proved equal to the function that the theorems are about.
  Protocols between threads are state machines on values.

Some fields exist only so that theorems can speak about the past: `changes` and `base` in
`ChangeTracking`, `emitted` and `from` in `Readdir`, `owed` and `detaches` in `Delegation`, the logs
and counters of `Callback`, `added` and `wiped` in `XattrCache`. No step consults them.

## Where the code falls short of a promise

- The active-delegation counter is lowered for every discarded duplicate grant without having been
  raised: `DelegationCount.ActiveCount` states the exact balance and
  `DelegationCount.DuplicateGrantUndercounts` gives a run in which the counter is too low.
- Dentry tags stay sound throughout every run in which `nfs_delegation_mark_returned` and the
  start-and-detach of the reap loops are not interrupted between their sections
  (`DelegationTags.TagsAreSound`). With other steps in between it can fail
  (`DelegationTags.MarkReturnedRace`, `DelegationTags.ReapRace`). The exact condition is that every
  detaching section finds no alias tagged (`DelegationTags.SoundIffUntouched`). In these four,
  starting a return and revoking are one step each, the flag together with the clearing of the tags.
- In the code the tags are cleared after the flag is set, outside the lock. `DelegationClears` makes
  the two separate steps. A tag without a usable delegation then always has a clear still to come,
  exactly when every detaching section finds no alias tagged or a clear that will still find the inode
  (`DelegationClears.FineSoundIff`). It fails when a delegation is detached between the flag and the
  clear of its revocation (`DelegationClears.RevokeRace`). Runs without that window and without
  interrupted detaches are sound (`DelegationClears.OrderlyTagsAreSound`).
- The scan consumes RETURN marks. The delegation nevertheless stays pursued, except exactly when its
  return is aborted for another reason than -EAGAIN, when a late reply takes RETURNING away, or when
  a grant or reclaim makes a revoked delegation good again (`DelegationPursuit.PursuitEndsIff`).
- Throughout a run there is at most one usable client record per key exactly when no failed record
  that has been replaced is marked usable again (`ClientUniqueness.UniqueIffNoRevival`). Runs in which
  that happens exist (`ClientUniqueness.TwoUsableClients`).
- `nfs42_listxattr_xdrsize` is a bound exactly for buffers below 2^29 bytes, where its 32-bit
  product wraps (`ListXattr.BoundHoldsIff`). Its callers stay far below.
- The byte count of a direct request does not depend on the order of completions, but the error
  reported when nothing was transferred does: a failed commit overwrites what was kept, any other
  error counts only if it is the first. The result is the same in every order exactly when something
  was transferred or the errors that decide agree (`DirectIo.ReportedIffAgree`).
- A comment in `mynfs/callback_proc.c:398-400` says that `validate_seqid` increments the slot's
  sequence. It does not; the increment follows the wait for referring calls, and the model follows the
  code.

## Model

| member | source | states |
|---|---|---|
| `OutOfOrder.AbsorbNet` | mynfs/inode.c:1949-1961 | the restarting merge loop swallows gaps without changing starts minus ends at any version |
| `OutOfOrder.AbsorbCanonical` | mynfs/inode.c:1949-1961 | when the loop stops, no gap left chains with the new range |
| `OutOfOrder.InsertMeaning` | mynfs/inode.c:1930-1974 | barring overflow, merging adds exactly the new range to the divergence and leaves no degenerate gap and no two gaps that chain |
| `OutOfOrder.CanonicalForm` | mynfs/inode.c:1930-1974 | such a table is exactly the positive and negative part of the divergence |
| `OutOfOrder.CanonicalUnique` | mynfs/inode.c:1930-1974 | equal divergence means equal starts, ends and size |
| `OutOfOrder.EmptyIffCancelled` | mynfs/inode.c:1930-1974 | the table is empty exactly when the recorded starts and ends cancel as multisets |
| `OutOfOrder.ArrivalOrder` | mynfs/inode.c:1930-1974 | the same records in any order leave the same starts and ends |
| `OutOfOrder.OverflowIff` | mynfs/inode.c:1963-1972 | the merge gives up exactly when no table without chaining gaps has the new divergence and fits the array |
| `ChangeTracking.RunInv` | mynfs/inode.c:1976-2009 | over every run of replies, invalidations and clearings, gaps and accounted changes balance between the version at the last clearing and the current one |
| `ChangeTracking.BalancedReaches` | mynfs/inode.c:2241-2292 | balanced edges contain a path from the one version to the other |
| `ChangeTracking.NoHiddenForeignChange` | mynfs/inode.c:2241-2292 | without overflow, an empty table means the accounted changes alone lead from the version at the last clearing to the current one |
| `ChangeTracking.EmptyIffAccounted` | mynfs/inode.c:2241-2292 | the table is empty exactly when the accounted changes balance to that one move, so there is no false alarm either |
| `ChangeTracking.LastGapIsReached` | mynfs/inode.c:2251-2263 | when one gap remains that ends at the counter, the accounted changes lead to its start, which justifies moving the counter back |
| `ChangeTracking.HonestRun` | mynfs/inode.c:2087-2131 | without a delegation, and with no write reply that reaches the branch where a pre-change version is made up, every accounted change was reported by the server as ours |
| `DataValidity.InvalidIffAlarmed` | mynfs/inode.c:191-224 | over every run, the data is marked invalid exactly when, since it was last dropped or found without pages, a reply came with a version the client could not account for, a size moved without writers, a directory changed, or somebody asked for it |
| `DataValidity.ForeignChangeInvalidates` | mynfs/inode.c:2251-2292 | after a newer reply whose version differs from the counter with its last gap folded, without writers or delegation and with pages cached, the data is invalid until it is dropped or no pages are left |
| `DataValidity.CounterIsLastVersion` | mynfs/inode.c:2241-2292 | the counter is the change attribute of the last reply that was taken over |
| `DataValidity.StepData` | mynfs/inode.c:191-224 | one step: the data becomes invalid exactly for such a reason and valid again exactly when it goes |
| `DataValidity.StepBooks` | mynfs/inode.c:206-223 | while the data stays valid the table is never cleared and gains exactly what the reply accounts for |
| `DataValidity.GivenUpOnlyWhenFull` | mynfs/inode.c:1930-1974 | tracking is given up only when memory or room in the array runs out |
| `NfsInode.Inode.Swallow` | mynfs/inode.c:1949-1961 | the in-place loop with its restart and swap-with-last terminates and leaves exactly the ranges that the loop on values leaves |
| `NfsInode.Inode.Merge` | mynfs/inode.c:1930-1974 | merging in place is the merge the theorems are about, with allocation failure and overflow |
| `NfsInode.Inode.SetCacheInvalid` | mynfs/inode.c:191-224 | in place: the data is invalid exactly if it was or is asked to be and there are pages, and exactly if it is or there are none the table and its deferred flag are cleared |
| `NfsInode.Inode.WccUpdate` | mynfs/inode.c:1543-1555 | the counter follows a matching pre-change version |
| `NfsInode.Inode.UpdateInode` | mynfs/inode.c:2241-2292 | in place: the counter is at the reply's version, and the data is invalid exactly if it was, a directory changed, a size moved without writers, or the version is one the client does not believe in and neither writers nor a delegation explain |
| `NfsInode.Inode.RefreshLocked` | mynfs/inode.c:1990-2009 | a newer reply updates, an older one is recorded |
| `NfsInode.Inode.ForceWccLocked` | mynfs/inode.c:2087-2131 | replies to writes: old ones dropped or recorded, missing pre-change versions made up |
| `Readdir.ShortcutIsExact` | mynfs/dir.c:524-564 | on a page whose ordered flag is sound, the ordered-cookie range check never changes the search result |
| `Readdir.LocateOnSegment` | mynfs/dir.c:537-564 | on a page that is a segment of the listing a cookie is found at its offset, or not at all |
| `Readdir.SearchOk` | mynfs/dir.c:500-580 | the search finds the position, moves to a page that does not start after it, or recognises the end, and never loses the cookie |
| `Readdir.EmitOk` | mynfs/dir.c:1085-1133 | emitting hands out the listing from the position on, wherever it is cut off |
| `Readdir.FillOk` | mynfs/dir.c:824-897 | spreading a reply over pages keeps every page a contiguous segment that starts at its index cookie |
| `Readdir.FetchedOk` | mynfs/dir.c:996-1067 | looking up, validating and filling gives a page that starts where the stream looks |
| `Readdir.ExactlyOnce` | mynfs/dir.c:1224-1325 | for a listing with distinct non-zero cookies and any cut-offs, evictions, refills, seeks and other streams, a stream has emitted exactly the listing from its last seek on, in order, and reports end only after the last entry |
| `Readdir.NeverLost` | mynfs/dir.c:1279-1293 | no turn ends in the bad-cookie fallback |
| `Readdir.Completes` | mynfs/dir.c:1224-1325 | a stream that is left alone reaches the end of the directory, whatever the reply and buffer sizes |
| `ReaddirTurns.EmitCount` | mynfs/dir.c:1085-1133 | the hand-out from a slot takes exactly as many entries as room, page and first-emit limit allow, and where it then stands |
| `ReaddirTurns.FetchedIs` | mynfs/dir.c:824-897 | the page takes as much of the reply as it has room for, is full exactly when something was left over or nothing is to come, and ends the directory exactly when the whole rest fitted and the server said so |
| `ReaddirTurns.TurnIs` | mynfs/dir.c:1016-1067 | over every run, one turn of a stream told from its position, its page, the reply and the room: how far it gets, when it reports the end, and which page it looks at next |
| `ReaddirTurns.FailedFillIs` | mynfs/dir.c:1016-1067 | a fill that fails leaves the streams alone, and on the page what arrived before |
| `ReaddirTurns.WantedIs` | mynfs/dir.c:996-1014 | a page of this generation that starts at the cookie is taken as it is, unless it is full and the cache is to be cleared; otherwise a new one is started |
| `ReaddirTurns.Evicted` | mynfs/dir.c:219-234 | an eviction takes its page and nothing else |
| `ReaddirTurns.ReadsFromLastSeek` | mynfs/dir.c:1224-1290 | a stream is there once opened and reads from where the log shows its last seek |
| `ReaddirTurns.FlagIsExact` | mynfs/dir.c:324-345 | over every run the range check is available exactly on the pages whose cookies rise |
| `ReaddirLoops.PageCache.FolioFiller` | mynfs/dir.c:824-897 | the fill loop over pages is the fill on values |
| `ReaddirLoops.PageCache.FetchPage` | mynfs/dir.c:996-1060 | look-up, reset and extension of the wanted page |
| `ReaddirLoops.Descriptor.SearchForCookie` | mynfs/dir.c:537-564 | the search loop with its range check |
| `ReaddirLoops.Descriptor.SearchArray` | mynfs/dir.c:500-580 | search by position or by cookie |
| `ReaddirLoops.Descriptor.DoFilldir` | mynfs/dir.c:1085-1133 | the emit loop with buffer end, first-emit limit and end of directory |
| `ReaddirLoops.Turn` | mynfs/dir.c:1016-1067 | one turn of fetch, search and emit is the step that the exactly-once theorem is about |
| `DelegationCoherence.RunCoherent` | mynfs/delegation.c:349-398 | every reachable state is coherent: list, pointers, back pointers and reference counts |
| `DelegationCoherence.ListedIffLinked` | mynfs/delegation.c:349-398 | a published delegation is on the list iff its back pointer is set iff its inode points to it |
| `DelegationCoherence.DetachedExactlyOnce` | mynfs/delegation.c:349-398 | over a delegation's life exactly one detach succeeds, and it is the one that takes it off the list |
| `DelegationCoherence.NeverFreedInUse` | mynfs/delegation.c:301-321 | the count is the base reference until the detacher drops it plus the returners between start and end, and is zero only when all of them are gone |
| `DelegationCount.ActiveCount` | mynfs/delegation.c:40-48 | the active counter is the number of published delegations not revoked minus the duplicate grants discarded |
| `DelegationCount.DuplicateGrantUndercounts` | mynfs/delegation.c:496-545 | a run in which the counter is below the number of delegations held |
| `DelegationMarks.NoLostMark` | mynfs/delegation.c:591-677 | outside a scan every listed delegation marked for return whose inode is not going away has the server bit set |
| `DelegationRecalls.MarkIsHeard` | mynfs/delegation.c:591-677 | in every state of every run, during scans too, the scanner still has to come to every marked delegation: the server bit is set or its walk or its next restart has it ahead |
| `DelegationFlags.FlagsByLog` | mynfs/delegation.c:301-347 | over every run, each flag of each delegation is what the last event with a say in it made of it, marks, scans, grants, returns and revocations alike |
| `DelegationFlags.NewerIsSigned` | mynfs/delegation.c:1003-1045 | a stateid is newer exactly when the difference of the seqids as a signed 32-bit number is positive |
| `DelegationRecalls.BitsByLog` | mynfs/delegation.c:78-84 | the two server bits are set exactly when something was announced since they were last acted on |
| `DelegationRecalls.RecallMarks` | mynfs/delegation.c:882-901 | a recall, and a pass that finds the file closed or the delegation unused, marks the delegation and sets the bit |
| `DelegationRecalls.RecallIsHonoured` | mynfs/delegation.c:1095-1150 | from a recall until one of the ends named by `DelegationPursuit.PursuitEndsIff` the delegation is on its way back, or it is marked or put off and the scanner has yet to come to it |
| `DelegationRecalls.LastCloseReturns` | mynfs/delegation.c:820-855 | a delegation that waits for the last close of its file is returned by it |
| `DelegationWalk.ScannerGoes` | mynfs/delegation.c:591-696 | where each step of the scanner takes it: which delegation it takes and passes, its place holder, where it restarts, when it ends |
| `DelegationWalk.ScanAdvances` | mynfs/delegation.c:605-677 | every step of a scan that is left alone, with returns that succeed, leaves fewer delegations due or gets further, so it comes to an end |
| `DelegationWalk.ScannerCanGoOn` | mynfs/delegation.c:605-696 | a scanner on its walk always has a next step |
| `DelegationPlaces.DelegationByLog` | mynfs/delegation.c:349-545 | over every run, which delegations exist, to which inode they are linked, their references, and their mode and stateid, told from the offers, updates, detaches and returns in the log |
| `DelegationMarks.PlaceHolderMissesNothing` | mynfs/delegation.c:605-677 | everything before the place holder is already taken care of, so a restart from it misses nothing a restart from the head would find |
| `DelegationDelayed.PutOffReturnsAreRemembered` | mynfs/delegation.c:334-347 | a return put off with -EAGAIN stays marked RETURN_DELAYED or RETURN, on the list and announced by a server bit |
| `DelegationDelayed.OwedUntilOver` | mynfs/delegation.c:591-696 | one step: it stops being owed only when another return starts or the delegation is revoked, detached or loses its inode, although the scan and the clearing pass consume and re-create the flags |
| `DelegationDelayed.PutOffReturnsStayMarked` | mynfs/delegation.c:334-347 | over the event log: after any return that ended with -EAGAIN, as long as no other return has started and the delegation is not revoked, detached or left by its inode, it is listed, marked RETURN_DELAYED or RETURN, and outside a scan a server bit says so |
| `DelegationPursuit.PursuitEndsIff` | mynfs/delegation.c:591-677 | a delegation marked, put off, being returned, revoked, unlisted or losing its inode stays one of these through every step, consumed marks included, except exactly at an abort for good, a late reply and a renewal |
| `DelegationTags.TagsAreSound` | mynfs/dir.c:1436-1491 | with each delegation function as one step, at every moment of every run an inode with a tagged alias has a delegation neither revoked nor returning |
| `DelegationTags.SoundIffUntouched` | mynfs/delegation.c:349-398 | with a detach as a step of its own, and each flag set together with its clearing of tags, tags are sound throughout a run exactly when every detaching section finds no alias of its inode tagged |
| `DelegationTags.FirstSectionDisables` | mynfs/delegation.c:1024-1063 | the first section of mark-returned or of the reap loops leaves the delegation revoked or being returned |
| `DelegationTags.DetachSoundIff` | mynfs/delegation.c:349-371 | a detach keeps tags sound exactly when no alias of the inode is tagged |
| `DelegationTags.MarkReturnedRace` | mynfs/delegation.c:1024-1063 | a run that is sound up to its last step, the second section of mark-returned, which leaves a tag without a delegation because an update in place came between the sections |
| `DelegationTags.ReapRace` | mynfs/delegation.c:1245-1278 | a run that is sound up to its last step, a reap loop's detach, which does the same because a late reply came after the start |
| `DelegationTagLog.TagsByLog` | mynfs/dir.c:1436-1491 | a dentry is tagged exactly when it was verified under a readable delegation and neither dropped nor wiped since |
| `DelegationClears.FineSoundIff` | mynfs/delegation.c:301-321 | with setting a flag and clearing tags as two steps, throughout a run every tag has a usable delegation or a clear still to come exactly when every detaching section finds no tag or another clear that will still find the inode |
| `DelegationClears.OrderlyTagsAreSound` | mynfs/delegation.c:1024-1063 | runs whose detaches follow on their first sections and never hit a revocation between flag and clear are sound in this sense, and tags are sound whenever nothing is left to clear |
| `DelegationClears.RevokeRace` | mynfs/delegation.c:989-1022 | a run in which a revoked delegation is detached before the revocation clears its tags, so that a tag stays with nothing left to clear |
| `DelegationServer.Server.MarkDelegationRevoked` | mynfs/delegation.c:40-48 | revocation on fields: flag, counter, tags |
| `DelegationServer.Server.DetachLocked` | mynfs/delegation.c:349-371 | detach on fields, and it reports success exactly when it changed something |
| `DelegationServer.Server.StartReturnLocked` | mynfs/delegation.c:301-321 | starting a return on fields, and which delegation it takes |
| `DelegationServer.Server.AbortDelegationReturn` | mynfs/delegation.c:334-347 | the abort on fields: RETURNING gone, and after -EAGAIN marked as put off with the server bit set |
| `DelegationServer.Server.EndDelegationReturn` | mynfs/delegation.c:552-589 | the end of a return on fields, aborted or not |
| `DelegationServer.Server.MarkReturnAll` | mynfs/delegation.c:903-913 | every listed delegation and no other gets the mark, and the bit is set if there was one |
| `DelegationServer.Server.ClearDelayed` | mynfs/delegation.c:679-696 | every put-off return becomes a marked one, no other delegation changes, and the return bit is set and true is returned exactly if there was one |
| `DelegationServer.Server.ReturnMarked` | mynfs/delegation.c:605-677 | the goto-restart scan with its place holder terminates for any outcomes of igrab and of the returns, starts a return only where one was due, and unless a return failed leaves no mark on the whole list, every delegation that was due being returned or its inode going away; it stops early only if a return failed, and then the bit is set again |
| `DelegationServer.ReachablePointed` | mynfs/delegation.c:605-677 | what that scan asks for holds in every reachable state |
| `AccessTree.CmpTotal` | mynfs/dir.c:2922-2957 | comparison is zero exactly for equal credentials, with or without group lists of any length, and antisymmetric |
| `AccessTree.CmpTransitive` | mynfs/dir.c:2922-2957 | comparison is transitive |
| `AccessTree.SearchIff` | mynfs/dir.c:2959-2976 | the tree search returns an entry iff it is in the tree with that credential |
| `AccessTree.InsertMeaning` | mynfs/dir.c:3090-3125 | insertion replaces what the credential had, keeps the rest and the order |
| `AccessTree.EraseMeaning` | mynfs/dir.c:2831-2836 | erasing removes that credential only and keeps the order |
| `AccessCache.UnhookOk` | mynfs/dir.c:2888-2901 | the zap loop empties tree and LRU together |
| `AccessCache.ScanOk` | mynfs/dir.c:2814-2852 | the scan with its saved neighbour drops at least one and at most the requested number of entries and keeps the accounting |
| `AccessCache.AddRespectsLimit` | mynfs/dir.c:3127-3161 | an add never leaves the count above the limit if it was not above, and never raises it if it was |
| `AccessCache.ZapOk` | mynfs/dir.c:2903-2919 | zap empties the inode and keeps the accounting |
| `AccessRuns.FastIsSlow` | mynfs/dir.c:3044-3074 | when the lock-free tail check succeeds, the locked lookup returns the same mask and leaves the same cache; when it must succeed is `AccessLog.FastAnswers` |
| `AccessRuns.RunOk` | mynfs/dir.c:2794-2919 | in every run tree and LRU hold the same entries with unique keys, an inode is listed iff its bit is set iff it has entries, and the count is the sum of the tree sizes |
| `AccessRuns.CountWithinLimit` | mynfs/dir.c:2872-2887 | however adders interleave and the limit is moved, the count exceeds the highest limit so far by at most the number of adders between insertion and limit check |
| `AccessRuns.CachedIsLastAdded` | mynfs/dir.c:3090-3161 | every cached entry is the one last added for its credential since the last zap |
| `AccessRuns.NothingOlderThanInvalidation` | mynfs/dir.c:2998-3042 | while an inode is not marked invalid, every cached entry is the one last added for its credential since the last invalidation |
| `AccessRuns.HitIsLastStored` | mynfs/dir.c:2998-3088 | a hit on either path returns the mask last stored for the credential, stored since the last zap and the last invalidation; when there must be a hit is `AccessLog.LookupAnswers` |
| `AccessLog.LookupAnswers` | mynfs/dir.c:2998-3042 | for times less than 2^63 apart: on a valid inode a lookup hits exactly when the entry last stored for the credential is still cached, was stored no earlier than the login and needs no revalidation first; otherwise it finds no entry, and on an invalid inode it zaps |
| `AccessLog.AfterIsSigned` | mynfs/dir.c:3029-3031 | for any times: a login is later than an entry exactly when the difference as a signed 64-bit number is positive |
| `AccessLog.FastAnswers` | mynfs/dir.c:3044-3074 | the lock-free check succeeds exactly when moreover that entry is the one used last and nothing is stale |
| `AccessLog.KeptIff` | mynfs/dir.c:3090-3161 | a step other than a scan leaves an entry cached exactly if it stored it, or it was cached and neither replaced nor zapped |
| `AccessLog.StaysCached` | mynfs/dir.c:3090-3161 | an entry stays cached from its store until it is replaced, zapped or taken by a scan |
| `AccessLog.ScanTakesOldest` | mynfs/dir.c:2814-2852 | the shrinker and the limit take from each inode only its oldest entries |
| `AccessLog.ScanFrees` | mynfs/dir.c:2814-2852 | a scan frees as many entries as asked for unless it comes down to a single inode, where it stops after one |
| `AccessLog.ListIsByUse` | mynfs/dir.c:2998-3042 | over every run each inode's list is ordered by the last store or hit of its entries |
| `AccessLog.InvalidIff` | mynfs/dir.c:2903-2919 | an inode is marked invalid exactly when it was declared so and its entries were not given up since |
| `AccessLog.InodesAreMade` | mynfs/dir.c:2794-2919 | inodes come as they are made and none goes |
| `AccessRuns.AccessCmp` | mynfs/dir.c:2922-2957 | the comparison with its group loop is the order of the theorems |
| `AccessRuns.SearchTree` | mynfs/dir.c:2959-2976 | the descent loop is the search of the theorems |
| `AccessRuns.Cache.DoScan` | mynfs/dir.c:2814-2852 | the scan loop on fields, with the number freed |
| `AccessRuns.Cache.ZapCache` | mynfs/dir.c:2888-2919 | the zap loop on fields |
| `AccessRuns.Cache.AddCache` | mynfs/dir.c:3127-3161 | add on fields, with replacement, counting and the limit |
| `XattrRuns.HitIsLastAdded` | mynfs/nfs42xattr.c:525-603 | what a name finds in a cache is what the event log shows as last added to it for that name and not removed since |
| `XattrLog.TableByLog` | mynfs/nfs42xattr.c:525-603 | over every run, a name leads to an entry exactly as long as it was added and neither removed, drained nor shrunk away, and then to the one added last |
| `XattrLog.FindHandsOut` | mynfs/nfs42xattr.c:585-603 | a look-up hands out exactly that entry, with the value last added, or nothing, and changes nothing else |
| `XattrLog.ContentByLog` | mynfs/nfs42xattr.c:174-244 | an entry has the name and value it was made with |
| `XattrLog.SlotByLog` | mynfs/nfs42xattr.c:308-337 | what listxattr finds: the list last set and not cleared or shrunk away, and nothing once the cache is being discarded |
| `XattrLog.InodeByLog` | mynfs/nfs42xattr.c:425-501 | which cache an inode leads to and whether it is marked invalid, told from the log |
| `XattrLog.LookupHandsOut` | mynfs/nfs42xattr.c:425-501 | getting a cache hands out the inode's cache unless it is invalid, the one linked meanwhile, or the new one |
| `XattrLog.FoundIsFresh` | mynfs/nfs42xattr.c:425-501 | what is found in the cache of an inode that is not marked invalid was added after the last event that declared it invalid |
| `XattrLog.DiscardGoesOn` | mynfs/nfs42xattr.c:383-409 | whoever discards a cache can always go on |
| `XattrLog.DiscardAdvances` | mynfs/nfs42xattr.c:383-409 | every step of it brings the end nearer, so it comes to an end |
| `XattrRuns.NothingOlderThanInvalidation` | mynfs/nfs42xattr.c:425-501 | the cache of an inode that is not marked invalid holds nothing added before the last invalidation |
| `XattrRuns.EntryCountIsRight` | mynfs/nfs42xattr.c:525-583 | while no bucket is draining, nent is the number of hashed entries |
| `XattrRuns.EntryReferences` | mynfs/nfs42xattr.c:887-966 | an entry has one reference for its place in a table or list slot plus its holders, is on an LRU exactly while it has a place, and has at most one place |
| `XattrRuns.DiscardedStaysEmpty` | mynfs/nfs42xattr.c:383-409 | a discarded cache stays empty and refuses every entry and list |
| `XattrRuns.FreedIsConstructed` | mynfs/nfs42xattr.c:267-284 | the last reference is dropped only on an empty cache, which goes back to the slab as constructed |
| `XattrRuns.HeldIsAlive` | mynfs/nfs42xattr.c:425-501 | a cache or entry somebody holds is not freed |
| `XattrRuns.RunInv` | mynfs/nfs42xattr.c:308-603 | the invariant behind these, over every interleaving of lookups, adds, removals, lists, discards and both shrinkers |
| `XattrTable.Table.GetEntry` | mynfs/nfs42xattr.c:510-522 | the chain walk returns what the map has for the name |
| `XattrTable.Table.HashAdd` | mynfs/nfs42xattr.c:525-560 | the bucket lists become the updated map, unless draining; the displaced entry and the count |
| `XattrTable.Table.HashRemove` | mynfs/nfs42xattr.c:562-583 | the map loses the name, and the count follows |
| `XattrTable.Table.Discard` | mynfs/nfs42xattr.c:383-409 | all buckets draining and empty, count zero, every entry released exactly as often as it was found |
| `DirectIo.RunMeaning` | mynfs/direct.c:85-132 | after any completions and truncations count is the smaller of the furthest end and max_count, and max_count the least of the length, error and EOF ends and truncated starts |
| `DirectIo.OrderIndependent` | mynfs/direct.c:85-132 | both depend only on which events happened |
| `DirectIo.CountIsSound` | mynfs/direct.c:85-132 | count is the largest number such that no failed, past-EOF or dropped byte lies below it and a transfer reached it |
| `DirectIo.CountIsGoodPrefix` | mynfs/direct.c:85-132 | for a request split into consecutive parts, finished in any order, possibly resent and with failed commits in between, count is the good prefix a walk in file order finds |
| `DirectIo.ErrorKept` | mynfs/direct.c:578-631 | the error kept is the last failed commit's if there is one, otherwise the first of a completion or of a resend that is not merely put off with -EAGAIN |
| `DirectIo.ReportedIsOrderIndependent` | mynfs/direct.c:231-250 | the caller's result does not depend on order or repetition if something was transferred or the deciding errors agree |
| `DirectIo.ErrorDependsOnOrder` | mynfs/direct.c:231-250 | otherwise some order of the same events gives another result |
| `DirectIo.ReportedIffAgree` | mynfs/direct.c:231-250 | the two as one equivalence over all orders |
| `DirectIo.FailedCommitRuns` | mynfs/direct.c:614-661 | a failed commit is the run of its error and of the truncations of its pages |
| `DirectIo.TruncateAllRuns` | mynfs/direct.c:703-719 | dropping a list of requests is the run of their events |
| `DirectIo.DirectReq.CountBytesIo` | mynfs/direct.c:104-120 | byte counting on fields |
| `DirectIo.DirectReq.ClearRequests` | mynfs/direct.c:703-719 | the draining loop truncates at every request |
| `DirectIo.DirectReq.CommitComplete` | mynfs/direct.c:614-661 | a failed commit drops every page, a stale verifier sends exactly the mismatched pages again, and the flags |
| `IoExclusion.RunInv` | mynfs/io.c:33-139 | the invariant of the protocol over every interleaving of any number of threads |
| `IoExclusion.Exclusion` | mynfs/io.c:33-139 | a buffered section implies the ODIRECT flag clear and no non-swap direct request outstanding, a direct section implies the flag set and all buffered writes pushed out, the two kinds never overlap, and a write section is alone |
| `IoExclusion.FlagIsPinned` | mynfs/io.c:17-32 | while a section is held no step changes the flag |
| `IoExclusion.OutstandingKeepsBufferedOut` | mynfs/internal.h:482-488 | a direct request that outlives its section keeps every buffered section out until it completes |
| `IoExclusion.NoDeadlock` | mynfs/io.c:33-139 | while a thread is under way some finishing step is possible |
| `IoLog.FileByLog` | mynfs/io.c:33-139 | over every run: the flag is set exactly if the last thread that turned the file over wanted direct I/O, the counts are the requests begun and not ended, and data is unsynced exactly if written since the last sync |
| `IoLog.ShortWayIn` | mynfs/io.c:33-139 | with the file as the thread wants it, one lock operation and one test let it in, readers and direct threads under the shared lock next to others, and nothing else changes |
| `IoLog.LongWayForShared` | mynfs/io.c:33-127 | otherwise an undisturbed reader or direct thread gives up the shared lock, turns the file over under the exclusive one and is in after six steps, with exactly the flag, the sync and the lock it needs |
| `IoLog.LongWayForWrite` | mynfs/io.c:68-73 | an undisturbed write turns the file over and is in after two |
| `IoLog.WayOut` | mynfs/io.c:55-139 | leaving gives back exactly the lock |
| `CallbackRuns.SeqidsAreConsecutive` | mynfs/callback_proc.c:410-447 | the n-th id accepted on a slot is n modulo 2^32, and the slot stands at the last; what must be accepted is `CallbackAnswers.SequenceAnswers` |
| `CallbackRuns.OnlyAcceptanceMoves` | mynfs/callback_proc.c:499-598 | a slot moves only when an accepted CB_SEQUENCE ends, by one; that it then does is `CallbackAnswers.LogGrows` |
| `CallbackAnswers.SequenceAnswers` | mynfs/callback_proc.c:410-598 | in every reachable state, from the number of requests accepted on the slot so far: exactly when a CB_SEQUENCE is accepted, when it is taken as a replay, and for each refusal (BADSESSION, BADSLOT, DELAY, SEQ_FALSE_RETRY, SEQ_MISORDERED, REP_TOO_BIG_TO_CACHE) exactly when it is given |
| `CallbackAnswers.LogGrows` | mynfs/callback_proc.c:562-581 | the log of a slot grows exactly when a compound holding it leaves the wait, by the next id |
| `CallbackAnswers.WaitersCame` | mynfs/callback_proc.c:543-581 | a compound in the wait got there by its own CB_SEQUENCE, with the client, slot and id of that request |
| `CallbackAnswers.PreprocessMeans` | mynfs/callback_xdr.c:791-898 | which operations are let through in which minor version and position, and which refusal each other one gets |
| `CallbackAnswers.OperationAnswers` | mynfs/callback_xdr.c:900-955 | what is executed was permitted and no replay; what is refused is refused with the right status |
| `CallbackAnswers.StartRuns` | mynfs/callback_xdr.c:960-996 | exactly which compounds are run at all, and with which client |
| `CallbackAnswers.FinishReleases` | mynfs/callback_xdr.c:997-1018 | at its end a compound gives back its reference and its slot is free |
| `CallbackRuns.ReplaysChangeNothing` | mynfs/callback_proc.c:420-434 | a request with the id the slot stands at moves no slot, locks nothing and is not accepted |
| `CallbackRuns.ExecutedOnce` | mynfs/callback_xdr.c:900-955 | in a session nothing is executed but under an accepted id, no two compounds share one, and a replay executes nothing |
| `CallbackRuns.ReleasedOnce` | mynfs/callback_xdr.c:960-1024 | a client referenced and a slot locked by a compound are each released exactly once, and until then are held in its name alone |
| `CallbackRuns.CountMatchesHeaders` | mynfs/callback_xdr.c:997-1017 | the reported number of operations is the number of result headers written, unless a handler itself returns the code reserved for headers |
| `CallbackRuns.HonestCount` | mynfs/callback_xdr.c:997-1017 | if no decoder, handler or encoder uses that code, the count is right in every reply of every run |
| `ClientUniqueness.ScanMeaning` | mynfs/client.c:276-333 | the search stops at the first record that has neither failed nor is ready for another server, waits for it or takes it, and finds none exactly when every record is one of these |
| `ClientUniqueness.OneUsableClient` | mynfs/client.c:399-438 | with any number of concurrent getters that drop the lock to wait, at most one usable record per key, as long as no replaced record is revived |
| `ClientUniqueness.UniqueIffNoRevival` | mynfs/client.c:399-448 | this holds throughout a run exactly when no failed record that has been replaced is marked usable again |
| `ClientUniqueness.TwoUsableClients` | mynfs/client.c:442-448 | for every key a run with two usable records |
| `ClientUniqueness.RevivalMakesTwo` | mynfs/client.c:442-448 | one mark: it keeps uniqueness exactly when no other usable record has the key |
| `ClientUniqueness.ListedIsReferenced` | mynfs/client.c:251-269 | a record is on the list exactly while it is referenced, its count is the number of its holders, and no holder's record is freed |
| `ClientUniqueness.FoundIsReady` | mynfs/client.c:374-393 | a getter that comes back with a found record has one that is ready and agrees with its request in protocol operations, transport, minor version, data-server use, security policy and address, its own or one added to it |
| `ClientLog.SearchDecides` | mynfs/client.c:276-333 | over every run, a search makes a record only when every live one has failed or is for another server, and otherwise ends at the oldest that is neither, waiting for it or taking it |
| `ClientLog.OldestFirst` | mynfs/client.c:399-438 | records stand on the list in the order in which they were made |
| `ClientLog.ThreadGoes` | mynfs/client.c:360-438 | where each getter goes after its allocation, its waits, its checks and its initialisation |
| `ClientLog.RecordIs` | mynfs/client.c:399-448 | what a record is, told from the log: the key it was made for, how it was last marked or failed, and the addresses added |
| `ClientUniqueness.Net.MatchClient` | mynfs/client.c:276-333 | the list walk on fields, with the reference it takes; what it returns is for the server asked for, and finding none means every record has failed or is for another |
| `ClientUniqueness.Net.PutClientRef` | mynfs/client.c:251-269 | dropping a reference on fields; the last one takes the record off the list |
| `ListXattr.ReplyFits` | mynfs/nfs42.h:61-66 | for every list that fits the buffer the names and the eof word fit the computed size |
| `ListXattr.BoundIsTight` | mynfs/nfs42.h:51-66 | with one-byte names less than twelve bytes are spare |
| `ListXattr.BoundHoldsIff` | mynfs/nfs42.h:61-66 | the bound holds for all lists exactly for buffers below 2^29 |
| `ListXattr.RoundTrip` | mynfs/nfs42xdr.c:1186-1282 | decoding an encoded reply gives back cookie, names and eof, with a buffer exactly when the list fits |
| `ListXattr.RoomDecides` | mynfs/nfs42xdr.c:1238-1268 | a buffer changes nothing but which lists are too long |
| `ListXattr.EverythingFits` | mynfs/nfs42xdr.c:1230-1237 | a list that fits the buffer fits the reply asked for and is read completely |
| `ListXattr.DecodeNames` | mynfs/nfs42xdr.c:1238-1268 | the name loop writes exactly the concatenation of prefixed, NUL-terminated names, never past the room it has, and stops with the right error |
| `ListXattr.DecodeListxattrs` | mynfs/nfs42xdr.c:1186-1282 | the whole decoder with its error translations |
| `ListErrors.DecodeAnswers` | mynfs/nfs42xdr.c:1186-1282 | the answer to every reply, told from its bytes: delivered exactly if all names are there, legal and fit; cut short is an I/O error; too long is out of range, or too big with the largest buffer there is |
| `ListXattr.ListUser` | mynfs/nfs4proc.c:8157-8178 | over several replies the caller's buffer holds exactly the concatenation of all names, and every list that fits is delivered |

## Left out

- RPC, transports, svc threads, workqueues, tracepoints, mount options, module setup, procfs and the DNS resolver: foreign code or plumbing; their results are inputs.
- NFSv3 XDR, pNFS layouts, READ_PLUS, `write.c` and the state manager: not part of this model.
- Red-black rebalancing, RCU grace periods and memory barriers: the tree is an ordered search tree and publication is atomic.
- Locking protocols (delegations, exclusion, callbacks, client sharing, xattr references) are state machines on values rather than classes: a class cannot express steps of other threads in between; the loops inside them are methods where they stand alone.
- Change tracking: the early exits of `nfs_update_inode` for a different file or type, special files, and the counter set by directory operations in `nfs4proc.c` are not modelled. `nfs_ooo_clear` and the size of the gap array are not in the repository; the first is taken to drop the table and the deferred flag, the second is a parameter.
- Readdir: the uncached fallback, the 32-bit position mode, offsets that are not cookies, replies without entries, readdirplus and error replies.
- `Readdir.ExactlyOnce`: for a listing that does not change while it is read; a changed directory starts a new cache generation.
- Delegations: one server; credentials, page limits and attribute values are not modelled; one list-walk visit is atomic and does not visit a delegation that was detached after the walk reached it. Checking for a delegation and setting a dentry's tag are one step, under the dentry's lock.
- `DelegationServer.Server.ReturnMarked`: without interference from other threads, which also means that a returned delegation stays on the list, as it does in the source until the reply to the asynchronous DELEGRETURN; interference is the subject of `DelegationMarks`.
- Access cache: insertion into tree, LRU, count and list is one step; the revalidation between two holds of the lock in a blocking lookup is an outside step.
- Xattr cache: values are opaque, allocation sizes and the two entry LRU lists are one flag, and nothing is claimed about a cached name list matching the attributes.
- Xattr cache: a bucket is drained entry by entry, which allows more interleavings than the code.
- Direct I/O: offsets do not overflow 64 bits; page dirtying, commit scheduling and I/O counts are not modelled.
- `IoExclusion.Exclusion`: swap I/O takes no part, as in the source; memory-mapped writes do not count as buffered write sections.
- Callbacks: the handlers other than CB_SEQUENCE, session reset, and NFS4ERR_DELAY for pending referring calls, which the code never returns because its status is never negative.
- `CallbackRuns.SeqidsAreConsecutive`: counts from a session's first use of a slot; a session reset starts anew.
- Client sharing: hostname checks, trunking discovery itself and the callback ident table.
