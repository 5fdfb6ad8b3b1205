# Verified model of the SMB proxy

The repository is a gRPC proxy in front of a Samba client. This project models
its stateful and concurrent parts in Dafny and proves what they keep over whole
runs. Samba is an abstract server: files and directories by path, open handles,
paged listings, and calls that fail, come up short, or fail after having taken
effect. `dafny verify dfyconfig.toml` checks everything.

| module | models |
|---|---|
| `Status`, `Collections` | NT status codes (section 2.3.1 of [MS-ERREF]) and the proxy's error kinds; shared facts about sets |
| `ConnectionPool`, `PoolRuns` | a task's active map and inactive list of connections; runs of concurrent requests and purges over it |
| `Paging`, `PagingRuns`, `UnusableRuns`, `CarelessPaging` | directory listings in pages with cookies; runs of many listings, over the interleaved steps of `PoolRuns`, that lose replies and send cookies again; what becomes of connections found unusable; runs in which that goes wrong |
| `RpcContext` | the CREATE/PROCESS/FINISH life cycle of RPC contexts under many polling threads |
| `IdLocker` | the per-id reader/writer locker that creates and erases its mutexes on the fly |
| `FetchFileHandle`, `FetchResults` | double-checked file creation: the steps of `IdLocker` composed with caches of `LruSpec`; where its errors and cached results come from |
| `ThreadPool` | workers, semaphore, queue, null sentinels and clean-up |
| `LruSpec`, `LruCache` | the LRU cache as a most-recent-first sequence, and as the list with its map of iterators |
| `Attempts`, `ChunkedIo` | the retry loops with the handles they open; chunked reads and writes |
| `HandleCache`, `HandleRuns` | the per-connection cache of open file handles, fed by those loops; its runs as runs of `LruSpec` |
| `Restore` | create, write and finalize with temporary files |
| `DeleteTree` | recursive deletion through paged listings |
| `MkDir` | `mkdir -p` with clean-up |
| `SmbPath` | path sanitising |

Concurrent code is a state machine: one step per lock, wait, unlock, server call
or field update that other threads can see, an inductive invariant, and theorems
about every state of every run. Code that works in place is a class or a method
with loops, specified by functions about which the theorems are proved. What the
server does is an oracle, a nondeterministic choice (`:= *`) or part of a step,
so each theorem covers every pattern of failures.

## What turned out not to hold, and exactly when it does

- A cookie that finds a connection is safe for the pool if and only if no request
  is using that connection (`PoolRuns.CookieIsSafeIffNotInUse`). Otherwise two
  requests share it, or it is shut down under the other request, which then
  returns a dead connection to the pool (`PoolRuns.StaleCookiePoolsDeadConnection`),
  from where it is handed out. A run with a cookie that a listing was given is
  `CarelessPaging.DeadConnectionRun`.
- A cookie names a connection and a count but no directory: a call that finds an
  open connection at its count continues its own listing if and only if the open
  listing is of its own path (`PagingRuns.CookieContinuesIff`). A run in which a
  listing of "/a" takes a child of "/b" for its own and completes without an error
  is `CarelessPaging.CarelessRun`. Listings are right in all runs of clients that
  keep one rule (`PagingRuns.Careful`): after a lost reply the cookie is sent again
  only if no request without a cookie has been sent to the task since the call that
  had no reply; otherwise the listing starts over.
- The debug check before a cached handle is inserted
  (gpl_util/smb/ops/fetch_file_handle_op.cc:189) fails if and only if the second
  lookup found an entry, which is then a stale error
  (`FetchFileHandle.SeenEntryIsStale`), and fewer than max_entries other paths have
  been touched in that cache since the path itself was
  (`FetchFileHandle.CheckFailsIff`); a run that fails it is
  `FetchFileHandle.FailingCheckRun`.
- A read or write of a chunk forgets the handle that it opened if and only if the
  path was not cached, some attempt opened a handle, and the retry loop was left
  early: no memory context, an unusable connection, a missing file or a permission
  error (`HandleCache.ForgetsIff`, gpl_util/smb/smb_proxy.cc:1226-1357 and
  1361-1445). Two attempts suffice (`HandleCache.TwoAttemptsForgetAHandle`).
- The clean-up of `MkDirWithParents` deletes directories that another client made
  in a race and that were taken as success: after a clean-up that deleted all that
  was recorded, all raced directories survive if and only if none was recorded
  (`MkDir.Share.MkDirWithParents`); a run that deletes one is
  `MkDir.ForeignDirectoryDeleted`.
- A commit may report success and publish nothing, when a prior file is at the final
  path (`Restore.SuccessWithoutPublishing`): a successful commit has published if and
  only if the temporary file was there (`Restore.CommitPublishesIff`). After a
  successful create and covering writes, with no discard and no new create, every
  successful commit has the data at the final path (`Restore.CommittedIsExact`).
- A stubbed write gives the same file as the untrimmed one if and only if nothing
  is trimmed or the trimmed part of the range already exists and is zero
  (`ChunkedIo.StubbedWriteSameFile`); the stub [1, 0] of an empty file loses its last
  byte (`ChunkedIo.StubLosesLength`).
- The size of a write is not compared with that of its data. Only bytes of the data
  are written if and only if the size is at most that of the data, or the memory
  behind the data is zero up to the size and the write is stubbed
  (`ChunkedIo.WritesOnlyDataIff`, for sizes below 2^32).
- With DFS a path that is not yet below the prefix keeps its components behind those
  of the prefix if and only if a separator comes in between or there is nothing to
  add (`SmbPath.SanitiseWithDfs`); the path "a" on share "h" becomes share "ha"
  (`SmbPath.DfsMerges`).
- Sizes are cast to 32 bits (gpl_util/smb/smb_proxy.cc:873): what is read or
  written is the size modulo 2^32 (`ChunkedIo.FetchFileData`,
  `ChunkedIo.Requested`), so nothing of 2^32 bytes
  (`ChunkedIo.FourGigabytesReadNothing`, `ChunkedIo.FourGigabytesWriteNothing`).

## Assumptions

Creation times of connections are distinct. A listing has one call outstanding at a
time. In the runs of `PoolRuns` a cookie is presented only while its listing is open
and unused; in `PagingRuns` this follows from the clients' rule. A forced purge of a
task happens only while no request of the task is in flight (as the comment at
gpl_util/smb/smb_proxy.cc:335-339 relies on), and a purge on request only when the
task has no active connection. Debug checks are off. `root_dir` is empty in the
deletion and restore models. Maximum read and write sizes are positive. The memory
behind the data of a write can be read up to the size of the write. A temporary path
differs from its final path and is no request's final path. A report that a path does
not exist is true. Directories do not change while they are being listed, but for the
children that a deletion itself removes between two pages; an open listing goes on
delivering what the directory held when the listing was opened. A file does not change
while it is being read. An error field that is present holds an error. Whether a
rename replaces an existing target is the server's choice, the same in a whole run of
the restore model.

## Model

| member | source | states |
|---|---|---|
| Status.FromSmbErrorMessage | gpl_util/smb/util.cc:171-211 | every failed call maps to an error, and to the retry error exactly for the statuses that make a connection unusable |
| Status.ErrorTable | gpl_util/smb/util.cc:171-211 | the whole table from status codes to errors, by the values of the codes |
| ConnectionPool.TaskCacheEntry.GetOrCreateSmbConnection | gpl_util/smb/smb_proxy.cc:977-1130 | with a cookie: the active connection of that creation time, used now, or a retry error, with shutdown and no longer active if its counter differs; without: the first inactive one that caches the path, else the first inactive one, moved to the active map and used now, else a new one; all others as before |
| ConnectionPool.ReleaseUndoesObtain | gpl_util/smb/smb_proxy.cc:1134-1171 | taking a connection without a cookie and giving it back leaves the pool as it was, but for that connection, which is clean and the last of the list |
| ConnectionPool.ShutdownTakesOut | gpl_util/smb/smb_proxy.cc:1175-1222 | shutting a connection down and dropping it takes it out of map and list, closes its cached handles and changes nothing else |
| ConnectionPool.TaskCacheEntry.MaybePurgeTaskIdleConnections | gpl_util/smb/smb_proxy.cc:1580-1603 | a listed connection is shut and leaves the list if and only if its last use is longer ago than the limit; the others are as before and keep their order |
| ConnectionPool.TaskCacheEntry.PurgeTaskAndAllConnections | gpl_util/smb/smb_proxy.cc:1547-1576 | refuses a busy task unless forced; otherwise exactly the connections of map and list are shut and both are empty |
| PoolRuns.StepKeepsInv | gpl_util/smb/smb_proxy.cc:977-1171 | every step of every request and purge keeps the ownership invariant |
| PoolRuns.EachConnectionIsOwnedOnce | gpl_util/smb/smb_proxy.cc:977-1171 | in every run each connection is active under its own creation time, or once in the inactive list, or shut down; both active and shut only while its request is dropping it |
| PoolRuns.NoSharing | gpl_util/smb/smb_proxy.cc:1012-1076 | in every run no two requests in flight have the same connection |
| PoolRuns.NeverHandedOutAfterShutdown | gpl_util/smb/smb_proxy.cc:1175-1222 | once shut down a connection is never again listed as inactive nor used by any request |
| PoolRuns.InactiveAreClean | gpl_util/smb/smb_proxy.cc:1134-1171 | in every run inactive connections have no directory handle and a zero child count |
| PoolRuns.CookieIsSafeIffNotInUse | gpl_util/smb/smb_proxy.cc:1012-1041 | a cookie call that finds a connection keeps ownership if and only if no request is using it |
| PoolRuns.StaleCookiePoolsDeadConnection | gpl_util/smb/smb_proxy.cc:1030-1037 | in any run, a cookie with a wrong count for a connection in use ends with that connection, shut, in the inactive list once its request has given it back |
| Paging.CollectPage | gpl_util/smb/smb_proxy.cc:577-648 | the loop over the names of a page computes the report that `CollectReports` is about |
| Paging.CollectReports | gpl_util/smb/smb_proxy.cc:577-648 | the children reported for a page are those that are not to be skipped, in order, marked exactly if they cannot be read, up to the first such one unless errors are tolerated |
| Paging.ListingErrorTold | gpl_util/smb/smb_proxy.cc:518-572 | a listing that fails because the connection is unusable asks for a retry and drops the connection, shut and in no list; any other failure is the directory's error, and the call's unless errors are tolerated, and gives the connection back clean |
| Paging.UnreadableChildTold | gpl_util/smb/smb_proxy.cc:633-680 | a child that stops the reporting is the call's error; the connection is given back if and only if the server was at the end of the listing, else dropped |
| Paging.ReplyTellsConnection | gpl_util/smb/smb_proxy.cc:509-690 | a cookie means that the connection is still active at its count; no cookie that it is clean at the end of the list, or shut and in no list, the latter only with an error; nothing else is touched |
| Paging.FetchChildrenMetadata | gpl_util/smb/smb_proxy.cc:473-690 | a whole call: acquiring the connection by cookie or without, the errors when there is none, and the two results above on what failures tell and do |
| PagingRuns.CollectedAreVisible | gpl_util/smb/smb_proxy.cc:577-648 | a page that is not cut short reports exactly its names that are not skipped, in order |
| PagingRuns.ServeReplies | gpl_util/smb/smb_proxy.cc:536-690 | a reply without error carries the visible part of the listing from the cursor to the cookie's count, or to the end without cookie |
| PagingRuns.ServeKeeps | gpl_util/smb/smb_proxy.cc:649-690 | the listing stays open if and only if the reply has a cookie, at the position the cookie says |
| PagingRuns.StepKeepsInv | gpl_util/smb/smb_proxy.cc:473-690 | every step of any listing, other request or purge keeps all listings right as long as clients keep the rule for sending cookies again |
| PagingRuns.NoChildLostOrRepeated | gpl_util/smb/smb_proxy.cc:161-185 | in every run of any number of listings, interleaved with other requests and purges, with lost replies, repeated cookies and restarts, what each listing has accepted is the visible part of a prefix of its directory |
| PagingRuns.LastPageCompletesListing | gpl_util/smb/smb_proxy.cc:675-690 | a listing that has taken a reply with no cookie and no error of either kind has its whole visible directory |
| PagingRuns.LostPageIsDetected | gpl_util/smb/smb_proxy.cc:1012-1041 | a cookie sent again finds a connection if and only if that is still open at exactly the cookie's count of the same listing |
| PagingRuns.CookieContinuesIff | gpl_util/smb/smb_proxy.cc:1012-1041 | a cookie call on an open connection continues the caller's listing, for all contents and events, if and only if the open listing is of the caller's path |
| UnusableRuns.UnusableIsNeverHandedOut | gpl_util/smb/smb_proxy.cc:546-562 | in every run of careful clients a connection that a listing found unusable is from then on in no list, and no request has it but the one that is about to drop it |
| CarelessPaging.CarelessRun | gpl_util/smb/smb_proxy.cc:1012-1041 | a run in which a re-sent cookie makes a listing complete without error and with another directory's child |
| CarelessPaging.DeadConnectionRun | gpl_util/smb/smb_proxy.cc:1030-1037 | a run in which a re-sent cookie shuts a connection down under another request, up to the point where a third request is handed it |
| RpcContext.ListenersConserved | gpl_util/grpclib/grpc_async_service.h:185-236 | per method, contexts waiting plus delivered but not yet replaced equal the registrations, in every interleaving |
| RpcContext.EventSeesItsStatus | gpl_util/grpclib/grpc_async_service.h:185-236 | under the lock an arrival finds PROCESS and a send-done event finds FINISH, however early delivered |
| RpcContext.OnlyLiveContextsTouched | gpl_util/grpclib/grpc_async_service.h:185-236 | a thread inside Proceed refers only to live contexts, one thread per critical section |
| RpcContext.DeleterIsAlone | gpl_util/grpclib/grpc_async_service.h:214-231 | when a context is about to be deleted no other thread and no event refers to it |
| RpcContext.OneHandlerOneReply | gpl_util/grpclib/grpc_async_service.h:202-231 | a deleted context with a good request ran its handler once and sent one reply, with a failed one neither, and is never mentioned again |
| RpcContext.ProceedMakesProgress | gpl_util/grpclib/grpc_async_service.h:185-236 | a thread inside Proceed, or the one whose lock it waits for, can always take a step |
| IdLocker.StepKeepsInv | gpl_util/base/id_locker.cc:51-129 | every step of acquire, release and clean-up keeps counts, map, mutexes and threads consistent |
| IdLocker.MutualExclusion | gpl_util/base/id_locker.cc:51-129 | a writer on an id excludes all other holders of the id, across erasure and re-creation |
| IdLocker.MutexNeverErasedInUse | gpl_util/base/id_locker.cc:51-129 | whoever holds or waits on an id's mutex finds it alive and the same as all others on the id |
| IdLocker.CountsAreExact | gpl_util/base/id_locker.cc:51-129 | counts equal holders plus waiters, and the map holds exactly the ids in use |
| IdLocker.NoLeak | gpl_util/base/id_locker.cc:51-129 | when all threads are idle no id and no mutex is left |
| IdLocker.WaitersDoNotHoldGlobal | gpl_util/base/id_locker.cc:51-129 | no thread waits on a per-id mutex while it holds the global one |
| IdLocker.NoDeadlock | gpl_util/base/id_locker.cc:51-129 | while some thread is not idle, one that is not idle can step, even if readers queue behind writers |
| IdLocker.WaiterCanLockIff | gpl_util/base/id_locker.cc:51-129 | in every run a waiting reader can lock if and only if no writer holds the id, a waiting writer if and only if nobody does |
| IdLocker.ReadersHoldTogether | gpl_util/base/id_locker.cc:51-129 | a reader that locks holds the id beside those that hold it already |
| FetchFileHandle.OneOpPerPath | gpl_util/smb/ops/fetch_file_handle_op.cc:113-193 | at most one op at a time is between second lookup and insertion for a path, over all tasks |
| FetchFileHandle.CreateOnlyIfAbsent | gpl_util/smb/ops/fetch_file_handle_op.cc:132-172 | an op about to create has no success cached for the path, and the file is still absent unless somebody else interfered |
| FetchFileHandle.CreateFollowsAbsentReport | gpl_util/smb/ops/fetch_file_handle_op.cc:132-172 | an op gets to create only directly from a metadata call that found the path absent |
| FetchFileHandle.InsertReplacesNoSuccess | gpl_util/smb/ops/fetch_file_handle_op.cc:176-193 | an insertion never replaces a cached success |
| FetchFileHandle.CheckFailsIff | gpl_util/smb/ops/fetch_file_handle_op.cc:176-193 | the check before an insertion fails if and only if the second lookup found an entry and fewer than max_entries other paths have been touched in the cache since |
| FetchFileHandle.SeenEntryIsStale | gpl_util/smb/ops/fetch_file_handle_op.cc:87-138 | an entry found by a second lookup that does not settle the op is a stale error, and the other way round |
| FetchFileHandle.FailingCheckRun | gpl_util/smb/ops/fetch_file_handle_op.cc:113-193 | a run of two ops on one path, with a clock that never goes back, that reaches the failing check, for any cache size |
| FetchResults.LookupReports | gpl_util/smb/ops/fetch_file_handle_op.cc:87-110 | a cached success is found, a cached error not older than the limit is the op's, and with neither the op goes on to its next stage |
| FetchResults.ErrorIsReported | gpl_util/smb/ops/fetch_file_handle_op.cc:125-172 | in every run an op whose directory, metadata or create call failed, or whose lookup found a fresh error, has that very error ever after |
| FetchResults.ErrorHasCause | gpl_util/smb/ops/fetch_file_handle_op.cc:87-172 | and an op has no error that did not come from such a call or lookup of its own |
| FetchResults.EndHasCause | gpl_util/smb/ops/fetch_file_handle_op.cc:113-193 | an op that is over was settled by a lookup, could not make its directory, or has inserted its result |
| FetchResults.InsertionCaches | gpl_util/smb/ops/fetch_file_handle_op.cc:176-193 | the insertion puts the op's result in front of its cache, an error with the time |
| FetchResults.InsertedSuccessIsBacked | gpl_util/smb/ops/fetch_file_handle_op.cc:140-193 | in every run an op about to insert a success has its file on the share, unless somebody else has changed the path since its metadata call |
| FetchResults.EntryWasInserted | gpl_util/smb/ops/fetch_file_handle_op.cc:176-193 | every cached entry was inserted by an op with that result for that path, a success by one whose file was then on the share unless somebody else interfered |
| ThreadPool.SemaphoreIsExact | gpl_util/base/thread_pool.cc:63-151 | queue length equals semaphore plus claims plus unposted items, so a pop never finds the queue empty |
| ThreadPool.DrainIsExact | gpl_util/base/thread_pool.cc:109-138 | after clean-up each worker consumed one null, and exactly the items enqueued before the last null ran, once each |
| ThreadPool.CleanUpMakesProgress | gpl_util/base/thread_pool.cc:109-138 | a clean-up that has begun and not returned always leaves a step to take |
| LruSpec.InclusionOverRuns | gpl_util/base/lru_cache.h:104-169 | for every run on two capacities the smaller cache is a subsequence of the larger, which has at most the difference more |
| LruSpec.SmallHitIsLargeHit | gpl_util/base/lru_cache.h:132-150 | after any run a hit in the smaller cache is the same hit in the larger |
| LruSpec.HitIsLastInserted | gpl_util/base/lru_cache.h:104-169 | a hit returns the value last inserted for the key, which has been neither removed nor cleared since |
| LruSpec.RecentKeyIsRetained | gpl_util/base/lru_cache.h:104-169 | a key stays while fewer than max_entries other keys are touched and it is not removed or cleared |
| LruSpec.RetentionIsExact | gpl_util/base/lru_cache.h:104-169 | without removal or new touch it stays if and only if fewer than max_entries others are touched |
| LruCache.LRUCache.Insert | gpl_util/base/lru_cache.h:104-128 | list and iterator map stay in agreement and refine the insertion of the abstract sequence |
| LruCache.LRUCache.EvictLast | gpl_util/base/lru_cache.h:121-127 | the back of the list and its map entry go |
| LruCache.LRUCache.Lookup | gpl_util/base/lru_cache.h:132-150 | the value of a hit, and the move to the front |
| LruCache.LRUCache.Remove | gpl_util/base/lru_cache.h:154-161 | exactly the key's entry goes from list and map |
| LruCache.LRUCache.Clear | gpl_util/base/lru_cache.h:165-169 | the cache is empty and still in agreement |
| LruCache.MoveToFront | gpl_util/base/lru_cache.h:104-150 | erasing a node and putting it or a newer one in front is the abstract move to the front and keeps agreement |
| HandleCache.SmbConnection.UpdateFileHandle | gpl_util/smb/smb_proxy.cc:1449-1492 | list and map agree within the limit; the handles closed are those that no longer fit, oldest first |
| HandleCache.SmbConnection.Purge | gpl_util/smb/smb_proxy.cc:1514-1529 | on one connection the path's handle is closed once and leaves list and map |
| HandleCache.PurgeFileHandle | gpl_util/smb/smb_proxy.cc:1496-1543 | on all connections of the task the path's handle is closed once and leaves list and map |
| HandleCache.SmbConnection.Read | gpl_util/smb/smb_proxy.cc:1226-1357 | a read of a chunk with its retries acts on cache and open handles as the request of the runs does; unless it is left early, the handle it used is then the newest in the cache; the error and count are those of the last attempt |
| HandleCache.SmbConnection.Write | gpl_util/smb/smb_proxy.cc:1361-1445 | the same for a write of a chunk; the error is that of the last failed attempt unless a full write followed |
| HandleCache.SmbConnection.CloseAll | gpl_util/smb/smb_proxy.cc:1195-1212 | all cached handles are closed once, in list order, and the cache is empty |
| HandleCache.UpdateIsLruInsert | gpl_util/smb/smb_proxy.cc:1449-1492 | read backwards, an update is the insertion of the generic LRU cache |
| HandleCache.UseMakesNewest | gpl_util/smb/smb_proxy.cc:1449-1474 | a use that is not left early makes the cached handle, or else the first that an attempt opened, the newest; any other use leaves the cache alone |
| HandleRuns.RunIsLru | gpl_util/smb/smb_proxy.cc:1449-1529 | from any moment of a run to any later one the reversed cache is the run of the generic LRU cache on the insertions, removals and clearings in between |
| HandleRuns.UsedHandleStays | gpl_util/smb/smb_proxy.cc:1449-1492 | a used handle stays cached while its path is not purged, the connection not shut down, and fewer than the maximum of other handles used |
| HandleRuns.UsedHandleStaysIff | gpl_util/smb/smb_proxy.cc:1449-1492 | among uses of other paths it stays if and only if fewer than the maximum of other handles are used |
| HandleCache.HandlesAreConserved | gpl_util/smb/smb_proxy.cc:1449-1529 | in every run each handle opened is still open or closed exactly once, cached ones are open, after a shutdown only forgotten ones are, and without forgetting requests none is |
| HandleCache.ForgetsIff | gpl_util/smb/smb_proxy.cc:1226-1357 | a request forgets a handle if and only if the path is not cached, some attempt opens one and the retry loop is left early |
| HandleCache.TwoAttemptsForgetAHandle | gpl_util/smb/smb_proxy.cc:1301-1320 | two attempts, the first opening a handle and the second finding the connection reset, forget it |
| Restore.Share.HandleEntity | gpl_util/smb/ops/create_restore_files_op.cc:279-380 | on success the final path is free and the temporary file is new and empty; on error the final path has nothing new; if no call goes wrong it succeeds if and only if the temporary path holds no folder and what is at the final path is of the stated kind |
| Restore.Share.DeleteExistingEntity | gpl_util/smb/ops/create_restore_files_op.cc:488-527 | removes what the client says is there, then goes on as without it |
| Restore.Share.DeleteTmpEntity | gpl_util/smb/ops/create_restore_files_op.cc:384-426 | removes a left-over temporary file first |
| Restore.Share.DeleteNewEntity | gpl_util/smb/ops/create_restore_files_op.cc:430-484 | then removes what an earlier incarnation put at the final path |
| Restore.Share.CreateRegularFile | gpl_util/smb/ops/create_restore_files_op.cc:591-650 | creates an empty file only where there was none |
| Restore.Share.WriteEntity | gpl_util/smb/ops/write_files_data_op.cc:111-140 | writes a prefix of the data to the temporary file, all of it on success; if no call goes wrong it succeeds if and only if the temporary file is there; the error asks for a retry if and only if the last write found the connection unusable |
| Restore.Share.FinalizeEntity | gpl_util/smb/ops/finalize_restore_files_op.cc:157-241 | commits by renaming, or removes the temporary file; if no call goes wrong a discard succeeds if and only if no folder is in its place; the error asks for a retry if and only if a call, other than to clear attributes, found the connection unusable |
| Restore.Share.RenameEntity | gpl_util/smb/ops/finalize_restore_files_op.cc:245-405 | changes nothing or moves the temporary file to the final path; success means a regular file there and no temporary one; if no call goes wrong it succeeds if and only if there is a temporary file that may be renamed, or none and a regular file at the final path; the error asks for a retry if and only if a call found the connection unusable |
| Restore.Share.Start | gpl_util/smb/ops/finalize_restore_files_op.cc:98-153 | after the first retry error no further request is sent and all get that error; the first error is the overall one; shutdown exactly when there was a retry error, that is, when a call found the connection unusable |
| Restore.Share.StartCreate | gpl_util/smb/ops/create_restore_files_op.cc:185-213 | every entity is handled, whatever happened to the earlier ones |
| Restore.Share.Serve | gpl_util/smb/ops/create_restore_files_op.cc:279-650 | atomic publication: in every state of every run the final path holds nothing, what is left of the prior entity, or all that the temporary file of one of the run's requests to commit to it held just before; each request does what it should or is withheld after a retry error; if no call goes wrong each one succeeds if and only if it can, and no write or finalize makes later ones be withheld |
| Restore.CommitTwice | gpl_util/smb/ops/finalize_restore_files_op.cc:245-405 | committing again after success changes no name and no content |
| Restore.CommitAfterLostReply | gpl_util/smb/ops/finalize_restore_files_op.cc:245-405 | a commit that succeeds after one whose reply was lost has published the temporary file |
| Restore.WritesFill | gpl_util/smb/ops/write_files_data_op.cc:111-140 | after any writes of pieces, some failing, every position of a successful one is right and the rest is right or zero |
| Restore.RestoreIsExact | gpl_util/smb/ops/finalize_restore_files_op.cc:245-405 | create, writes whose successful ones cover the data, and commit leave exactly the data at the final path and change nothing else |
| Restore.PublishedIsExact | gpl_util/smb/ops/finalize_restore_files_op.cc:245-405 | in every run with re-issued requests, a commit that publishes after covering successful writes since the last create publishes exactly the data |
| Restore.FaultFreeRestore | gpl_util/smb/ops/finalize_restore_files_op.cc:98-405 | a create that can succeed, covering writes and a commit, with no call going wrong: all succeed and exactly the data is at the final path |
| Restore.CommitPublishesIff | gpl_util/smb/ops/finalize_restore_files_op.cc:381-404 | a successful commit has published if and only if the temporary file was there; otherwise it has changed nothing |
| Restore.SuccessWithoutPublishing | gpl_util/smb/ops/finalize_restore_files_op.cc:381-404 | with a prior file and no temporary one a commit succeeds and changes nothing |
| Restore.CommittedIsExact | gpl_util/smb/ops/finalize_restore_files_op.cc:245-405 | in every run, after a successful create and covering writes and without a discard, every successful commit, sent once or again, has exactly the data at the final path |
| DeleteTree.DeleteEntityOp.DeleteDir | gpl_util/smb/ops/delete_entity_op.cc:110-158 | terminates; nothing outside the subtree changes; success means the subtree is gone; without failing calls it succeeds; the error is the one of the last deletion |
| DeleteTree.DeleteEntityOp.DeleteChildren | gpl_util/smb/ops/delete_entity_op.cc:112-154 | for every page split all listed children go, and the cookie map is as before on success |
| DeleteTree.DeleteEntityOp.DeleteNextPage | gpl_util/smb/ops/delete_entity_op.cc:113-153 | one page is fetched and its children deleted; the cookie kept stands for exactly the rest of the listing |
| DeleteTree.DeleteEntityOp.DeletePage | gpl_util/smb/ops/delete_entity_op.cc:126-145 | deletes a page's children up to the first error and leaves the rest of the listing right |
| DeleteTree.DeleteEntityOp.DeleteFile | gpl_util/smb/ops/delete_entity_op.cc:177-194 | clears a read-only attribute and tries again; success means the file is gone; the error is the one of the last attempt to delete |
| DeleteTree.DeleteEntityOp.DeleteEmptyDir | gpl_util/smb/ops/delete_entity_op.cc:162-173 | only an empty directory goes; on an error nothing changes; the error is the server's |
| MkDir.MissingAreTheAbsentAncestors | gpl_util/smb/util.cc:85-145 | the directories to make are exactly the absent ones among the target and its ancestors |
| MkDir.Share.CreateDirectoryWithChecks | gpl_util/smb/util.cc:54-79 | success means that there is a directory, new or not; without failures it succeeds if and only if there is one or can be one; one that appears despite an error is another client's |
| MkDir.Share.MkDirWithParentsInternal | gpl_util/smb/util.cc:85-145 | terminates; makes a prefix of the missing directories, on success all; records them but for a racing client's at the failing step |
| MkDir.Share.CleanUp | gpl_util/smb/util.cc:342-356 | deletes the recorded directories from the last one on, and all of them if no call fails |
| MkDir.Share.MakeOrCleanUp | gpl_util/smb/util.cc:334-358 | on success the share gains exactly the missing directories; on failure it keeps what clean-up could not delete |
| MkDir.Share.MkDirWithParents | gpl_util/smb/util.cc:308-359 | all or nothing: on success the share gains exactly the missing directories; on failure, if no clean-up call fails and no stray directory appeared, it is as before; without failures it succeeds; after a complete clean-up raced directories survive if and only if none was recorded |
| MkDir.ForeignDirectoryDeleted | gpl_util/smb/util.cc:54-79 | another client wins the race for a parent, the target is denied, and clean-up deletes the other client's directory |
| MkDir.CheckedTells | gpl_util/smb/util.cc:54-79 | a failed create call is told as it is, a failed check after a collision as something in the way |
| MkDir.MakingTells | gpl_util/smb/util.cc:85-145 | making parents stops at the first serious failure, which is told unless it was in the check after a lost race |
| MkDir.FailureTells | gpl_util/smb/util.cc:334-358 | the operation tells why it failed, or if a clean-up call fails, that |
| ChunkedIo.ReadBytesFromOffset | gpl_util/smb/smb_proxy.cc:1226-1357 | retries of different lengths leave the longest prefix of the range in the buffer; count and error are those of the last attempt; the attempts end at the first that is complete or not worth another one, or when there may be no more |
| ChunkedIo.FetchFileData | gpl_util/smb/smb_proxy.cc:722-783 | on success exactly the range of the file, on error a prefix of it; the counters do not wrap; the error is that of the last server call, and asks for a retry if and only if that call found the connection unusable |
| ChunkedIo.WriteBytesToOffset | gpl_util/smb/smb_proxy.cc:1361-1445 | a prefix of the chunk, at least as long as the count, is written; without error the count is positive; the error is that of the last failed attempt, short writes leave it, a full write clears it |
| ChunkedIo.WriteChunks | gpl_util/smb/smb_proxy.cc:872-904 | the chunks amount to one write of a prefix, on success of everything; an error is that of a call after which there were only short writes |
| ChunkedIo.WriteFileDataHelper | gpl_util/smb/smb_proxy.cc:850-904 | one logical write of the requested bytes on success, of a prefix on error, and never a byte outside the range; a retry is asked for if and only if the last call found the connection unusable |
| ChunkedIo.TrimStub | gpl_util/smb/smb_proxy.cc:860-865 | trailing zero bytes go, but never the first byte |
| ChunkedIo.StubbedWriteSameFile | gpl_util/smb/smb_proxy.cc:857-870 | a trimmed write gives the same file if and only if nothing is trimmed or the rest of the range exists and is zero |
| ChunkedIo.StubLosesLength | gpl_util/smb/smb_proxy.cc:857-870 | the stub [1, 0] of an empty file loses its last byte |
| ChunkedIo.WritesOnlyDataIff | gpl_util/smb/smb_proxy.cc:797-870 | only bytes of the data are written if and only if the size stays within the data, or the stub's excess is zero |
| ChunkedIo.FourGigabytesReadNothing | gpl_util/smb/smb_proxy.cc:722-783 | a read of 2^32 bytes succeeds with none |
| ChunkedIo.FourGigabytesWriteNothing | gpl_util/smb/smb_proxy.cc:873 | of 2^32 bytes none is to be written |
| ChunkedIo.StubOverZeros | gpl_util/smb/smb_proxy.cc:857-870 | over a zero-filled range trimming loses nothing |
| SmbPath.GetSmbPath | gpl_util/smb/util.cc:426-460 | the loop computes the sanitised path, with the DFS prefix unless it is there already |
| SmbPath.SanitiseIsIdempotent | gpl_util/smb/util.cc:426-460 | sanitising twice is sanitising once, with or without DFS |
| SmbPath.SanitiseWithoutDfs | gpl_util/smb/util.cc:426-460 | no forward slash, no adjacent separators, the same components, separators at the ends exactly where the path has them |
| SmbPath.SanitiseWithDfs | gpl_util/smb/util.cc:426-460 | a path below the prefix is left alone; any other is sanitised as without DFS and put behind the prefix, and keeps its components behind those of the prefix if and only if a separator comes in between or there is nothing to add |
| SmbPath.PrefixIsServerAndShare | gpl_util/smb/util.cc:430-437 | the prefix is the server's and the share's name with one separator before each, whether or not the share is given with its own |
| SmbPath.DfsMerges | gpl_util/smb/util.cc:426-460 | a path of one letter becomes part of the share's name |

## Left out

- `GrpcAsyncService::StopServer`: it deletes contexts while pollers may be inside Proceed; the RpcContext results are about runs before shutdown begins.
- `SmbProxyCreateEntity`: it never releases its connection (gpl_util/smb/smb_proxy.cc:1615-1648), so pool runs do not contain it.
- `SmbProxyPurgeTask` on a busy task: it drops the task entry before the busy check (gpl_util/smb/smb_proxy.cc:925-937).
- Restore.Share.DeleteTmpEntity: the purge of the deleted file's cached handle is not modelled, because the restore's writes do not cache handles.
- Restore.Share.WriteEntity: the fallback to the final path when a request names no temporary path is not modelled; non-empty files always have one.
- ChunkedIo.WriteFileDataHelper: memory that cannot be read, behind the data of a write with too large a size, is not modelled.
- `PurgeFileHandle` racing with a request between handle lookup and update: the handle cache is sequential per connection.
- Making a connection with retries and host name resolution: one call that succeeds or fails.
- What a read or write request does with its connection afterwards (gpl_util/smb/smb_proxy.cc:694-840): the pool runs contain both ways of giving it up, whatever the error.
- Uptier, hardlink, alternate-location and volume-restore branches of create and finalize: they depend on server behaviour that is not visible here.
- `NormalizePath` and other functions built on boost paths: paths reach `MkDirWithParents` as they are.
- `VerifyShareOp`, `RenameEntityOp`, `CreateSymlinkOp`: retry wrappers around one call.
- Message texts, logging, access times of tasks, memory checks, HTTP handlers.
- Overflow of counters such as `children_fetched` and of the locker's counts: they are unbounded here.
- Attributes and ACLs in the restore model: setting them is a call that changes neither names nor contents.
- Aliasing of connection objects: a connection is an identity in a map, not a heap object.
- PagingRuns.NoChildLostOrRepeated: only for clients that keep the rule for sending cookies again, without which it is false.
- MkDir.Share.MkDirWithParents: the path is taken as normalised already, and another client is modelled only as making the same directory just before a create call.
- DeleteTree.DeleteEntityOp.DeleteDir: paths are sequences of names, and no other client works in the subtree.
