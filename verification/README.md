# The client block cache of CubeFS for Android, verified

The FUSE client keeps two block caches per mount. Writes go into 1 MB write buffers that are merged, flushed, handed to
background writers or bypassed; reads come from the server or from prefetched blocks and are overlaid with the write
buffers. This project models those caches, the lock protocol between their goroutines, and three small state machines
beside them, and proves that they behave like a flat byte file.

**Two layers.** `WriteMachine` and `CacheMachine` are state machines with one atomic step per lock round, list or map
update, channel operation or server call, for any number of goroutines of one file; other files, which share the buffer
pool, the LRU list, the channel and its background writers, take and return free buffers, put their buffers on the list
and take them off, fill the channel and keep background writers busy at any time. Their theorems speak of every run.
`WCache`, `Buffer`, `LockMap`, `DoRead`, `Prefetcher`, `Dir`, `LRUCache`, `FileCache` and `Mount` are the source's
objects and loops in imperative form. Each method of `WCache` is proved to be a run of the machine (`Valid` says that
the object's state is a reached one), so the theorems about all runs hold of the object.

**The server** is a byte sequence. A write past its end fills with zeros; a write succeeds, fails without effect, or
fails after taking effect; a read returns at most what was asked, or fails.

**The view** of a file is the server's bytes overlaid by the buffered ranges, with zeros in between (`Overlay.View`).
`log` is the list of block writes that have taken effect; the central invariant is that the view is the first content
with the log replayed over it, whatever has been flushed, expired, queued, retried or lost on the way.

Files, in the order in which they build on one another: `FlatFile`, `Overlay`, `Slicing`, `BlockBuffer`, `Locks`;
`WriteMachine`, `WriteInv` (every step keeps the invariant), `WriteTheorems`, `Durability`, `WriteRuns`;
`CacheMachine`, `CacheInv`, `NoDeadlock`, `CacheRuns`, `Coherence`, `ReadRuns`, `BareReads`, `Witness`, `Served`,
`Progress`, `Truncation`; `ReadMerge`, `Holes`, `WriteCache`, `Files`; `Prefetch`, `DirListing`, `LruCache`, `HandleTable`.

Four properties that a reader might expect are false of the code. Each has a failing run, and the exact
condition under which the code does meet it:

- A read returns at least as many bytes as the view has exactly when its last block is prefetched or its last op does
  not end in a hole behind the block's own buffer, past the server's end and below a higher buffered block
  (`ReadMerge.DoRead`; failing run `Holes.ShortHoleReached`). It returns more than the view has only inside a prefetched
  block, whose padding it returns too.
- A read looks the write cache's file buffer up once, before its first op (lib/libfs/rwcache.go:46). If there is none
  yet, no op of the read locks or merges, so the read can miss a Write that has already returned
  (`Witness.BareReadMisses`, for every byte that such a Write changes). Until the first Write of the file begins, the
  bytes such a read has taken are the view's, with prefetch on or off (`BareReads.BareReadBeforeWrites`). After that, and
  with prefetch off, they are the view's of that moment exactly when no buffered byte of the range differs from the
  server's (`BareReads.BareReadExact`); in every run each byte is one that the view had since the read began
  (`BareReads.BareReadHad`). A read that found the file buffer returns the view's bytes at the merge
  (`ReadRuns.ReadSeesView`, `ReadRuns.ReadsWithoutPrefetch`, `ReadRuns.ReadsWhenSettled`).
- A block that is prefetched while it has a write buffer can be stale after the flush, with no cleaning due
  (`Witness.PrefetchGoesStale`). The flush leaves a cached block right exactly when the buffer holds no byte that
  differs from the server's (`ReadRuns.FlushStales`); coherence is therefore proved for runs that prefetch a block only
  while it has no write buffer (`Coherence.CachesCoherent`).
- Closing a directory wakes a waiting reader exactly when a token is there or the producer is past the top of its loop;
  otherwise the reader waits forever (`DirListing.CloseWhileWaiting`; failing run `DirListing.StrandedReached`).

## Model

| member | source | states |
|---|---|---|
| WriteRuns.ViewOverRuns | lib/libfs/wcache.go:230-347 | in every run of any number of goroutines, the view is the first content with the applied block writes replayed in order; flushes, expiry, background completions, pool exhaustion and failed server writes never show |
| WriteInv.StepKeeps | lib/libfs/wcache.go:230-586 | every atomic step of every operation keeps the whole invariant: pool, LRU order, lock ownership, channel, jobs, stages and view |
| WriteTheorems.StepView | lib/libfs/wcache.go:230-347 | one step leaves the view alone or writes exactly the acting writer's current op into it |
| WriteRuns.WritePrefix | lib/libfs/wcache.go:404-430 | at every moment of a Write, the ops it has made part of the view are a prefix of its ops, in order, each once |
| WriteRuns.WriteEnds | lib/libfs/wcache.go:410-426 | a Write that ends without error has applied all ops; a failed one has applied those before the failing op, or those and that one |
| WriteRuns.NoFalseErrors | lib/libfs/wcache.go:404-523 | in every run without a failed server call no Write, Flush, flush worker, size query or background write has an error |
| WriteRuns.FlushDurable | lib/libfs/wcache.go:472-523 | when Flush returns nil, every byte buffered at its start is on the server with its value of then, or a later write covered it, whatever ran concurrently |
| WriteRuns.FlushEmpties | lib/libfs/wcache.go:472-523 | with no write taking effect meanwhile, a Flush that returns nil leaves no buffer attached, for every order of its workers |
| WriteRuns.FlushComplete | lib/libfs/wcache.go:472-523 | the server file then equals the view |
| WriteRuns.EightWorkers | lib/libfs/wcache.go:486-505 | in every run a Flush has at most eight workers at a time |
| WriteRuns.FstatBounds | lib/libfs/stat.go:147-160 | the size Fstat reports lies between the view size at its start and the view size at its end, for every interleaving |
| WriteRuns.LocksExclude | lib/libfs/cache.go:275-300 | a block has one exclusive holder, never together with a reader or with its buffer in the channel, and the unlock assertion holds for whoever unlocks |
| WriteRuns.ReadersCounted | lib/libfs/cache.go:302-334 | the read count of a block equals its live readers, and the read-unlock assertion holds |
| WriteRuns.AllReleased | lib/libfs/wcache.go:413-417 | every lock taken is released, also when a background writer does it: with nothing under way the lock table is empty |
| WriteRuns.PoolConserved | lib/libfs/wcache.go:83-105 | free, attached, in-hand and other files' buffers always add up to the pool, and no free buffer is on the LRU list |
| WriteRuns.PlacedOnce | lib/libfs/wcache.go:83-105 | every buffer is in exactly one place: free, attached at its own block, in the hands of one operation, or with another file |
| WriteRuns.OthersStarve | lib/libfs/wcache.go:83-105 | from every state other files can take every free buffer and fill the channel, with this file left as it is; the theorems hold of those runs too |
| WriteRuns.Accounted | lib/libfs/wcache.go:107-148 | an attached buffer whose block is unlocked is on the LRU list once, or an expiry scan has just taken it off and will flush it |
| WriteRuns.ExpiryComplete | lib/libfs/wcache.go:129-148 | the LRU list, which all files share, is sorted by age in every run, so a young tail means that every listed buffer of every file is young |
| NoDeadlock.NeverStuck | lib/libfs/rwcache.go:50-75 | in every reachable state with an unfinished read, write, flush, size query, prefetch or cleaning, also one whose server call has failed, some goroutine can take a real step; a Flush has at most eight workers |
| Progress.EverythingEnds | lib/libfs/wcache.go:404-586 | without new calls, every run from every reachable state takes at most a computed number of operation steps, and can stop only when every operation has ended and both channels are empty |
| Progress.RealLowers | lib/libfs/wcache.go:230-586 | every step of an operation under way lowers a measure of the work left |
| Progress.QueuesDrain | lib/libfs/rcache.go:421-440 | from every reachable state some run of operation steps ends all operations and empties both channels |
| CacheRuns.Projects | lib/libfs/rwcache.go:40-120 | the write-cache part of a run of both caches is a run of the write cache, so everything proved of its runs holds here too |
| CacheRuns.ReadLocksExclude | lib/libfs/cache.go:275-300 | a block of the read cache has one exclusive holder, never together with a reader or a place in the prefetch channel, and the unlock assertion holds |
| CacheRuns.QueuedIsLocked | lib/libfs/rcache.go:280-301 | a block in the prefetch channel stays locked, by nobody but the channel, until a worker takes it out |
| CacheRuns.ReadReadersCounted | lib/libfs/cache.go:302-334 | the read count of a block of the read cache equals its live readers, and the read-unlock assertion holds |
| CacheRuns.ReadAllReleased | lib/libfs/rcache.go:421-440 | with nothing under way and an empty prefetch channel the read cache's lock table is empty |
| CacheInv.CStepKeeps | lib/libfs/rcache.go:280-301 | every step of both caches keeps the lock ownership of the read cache, the prefetch channel and the link between the two |
| Coherence.CachesCoherent | lib/libfs/rwcache.go:104-108 | in runs that prefetch only unbuffered blocks, a cached block with no cleaning outstanding is the server's zero-padded block and has no write buffer |
| ReadRuns.ReadSeesView | lib/libfs/rwcache.go:53-75 | a block read that locked the write cache's block returns the view's bytes at the moment of the merge, whatever others do meanwhile, if the cached block agreed when it was read |
| ReadRuns.ReadsWithoutPrefetch | lib/libfs/rwcache.go:53-75 | with prefetch off, every such read in every run returns the view's bytes |
| ReadRuns.ReadsWhenSettled | lib/libfs/rwcache.go:53-75 | with prefetch careful until the read looks at its block, a read that meets no outstanding cleaning of that block then returns the view's bytes, whatever other readers met and whatever happens afterwards |
| ReadRuns.LookedAt | lib/libfs/rwcache.go:58-61 | every read that has bytes of a block has such a last look at it |
| ReadRuns.ReaderGets | lib/libfs/rwcache.go:58-61 | a locked reader of a block fails only if the block is not cached and the server fails; otherwise it has as many bytes as asked, each from the cached block or the server |
| ReadRuns.ReaderMerges | lib/libfs/rwcache.go:63-75 | two steps of its own then take it to the merge of the same range |
| Served.ReadServed | lib/libfs/rwcache.go:53-75 | from every reachable state, a read of any range of a block that nobody has locked exclusively gets through by six steps of its own, and returns the view's bytes if the cached block agrees |
| BareReads.BareReadHad | lib/libfs/rwcache.go:46-75 | each byte that a read without a write file buffer returns is one that the view had at some moment since the read began, in every run |
| BareReads.BareReadBeforeWrites | lib/libfs/rwcache.go:46-75 | until the first Write of the file begins, the bytes that such a read has taken are the view's, prefetch on or off |
| BareReads.BareReadExact | lib/libfs/rwcache.go:46-75 | later, with prefetch off, the bytes it takes are the view's exactly when no buffered byte of its range differs from the server's |
| Witness.BareReadMisses | lib/libfs/rwcache.go:46-75 | a run in which such a read returns the old byte after a Write of the new one has returned |
| Served.BareServed | lib/libfs/rwcache.go:46-75 | the same for each op of a read without a write file buffer, which fails exactly when the block is not cached and the server does not answer |
| ReadRuns.AgreesWithoutPrefetch | lib/libfs/rcache.go:67-73 | with prefetch off that condition holds in every run |
| ReadRuns.AgreesWhenClean | lib/libfs/rcache.go:442-461 | with careful prefetch it holds once no Write still has to clean the block |
| ReadRuns.FlushStales | lib/libfs/wcache.go:444-467 | in every run, a cached block that is right stays right across the flush of its write buffer exactly when the buffer brings nothing new |
| Witness.PrefetchGoesStale | lib/libfs/rcache.go:390-440 | a run of one Write, one prefetch and one Flush after which the cached block differs from the server's, no buffer covers it and no cleaning is due |
| Served.PrefetchServed | lib/libfs/rcache.go:275-440 | a prefetch of an unlocked, uncached block inside the server's file ends with the server's padded block in the cache and the lock given back, once an idle worker takes it |
| Served.CachedInside | lib/libfs/rcache.go:390-418 | in every run a cached block is a whole block and begins inside the server's file |
| Served.ReachedForDoRead | lib/libfs/rwcache.go:40-87 | every reached state of the machine has the whole blocks and ordered buffers that the read loop asks for, and its blocks agree with the server exactly when the loop needs them to |
| Truncation.TruncateRestarts | lib/libfs/file.go:274-301 | once Flush ends well with nothing else under way, the release of the read cache and the resize lead to a start state of both caches whose view has the asked length and the old view's bytes below it, so all theorems hold again from there |
| Truncation.FlushReleaseDrains | lib/libfs/file.go:284-294 | the end of that Flush and then Release are a run that leaves neither cache anything and keeps the view |
| Truncation.ReleaseRun | lib/libfs/rcache.go:329-350 | once no block is locked, dropping the cached blocks in any order empties the read cache and touches nothing else |
| Truncation.Restarts | lib/libfs/file.go:284-294 | a drained write cache over any content is a start state: all buffers free, all lists and tables empty |
| FlatFile.ResizeIs | lib/libfs/file.go:301 | a resized file has the new length and keeps every byte below it; what is new is zero |
| Overlay.PutCell | lib/libfs/wcache.go:255-259 | a new or extended buffer changes the view by exactly the op |
| Overlay.PutServer | lib/libfs/wcache.go:236-238 | a direct write to an unbuffered block changes the view by exactly the op |
| Overlay.WriteBack | lib/libfs/wcache.go:444-445 | writing a buffer's own bytes to the server leaves the view alone |
| Overlay.DropCell | lib/libfs/wcache.go:465-467 | detaching a buffer whose bytes are on the server leaves the view alone |
| Overlay.ReplaceCell | lib/libfs/wcache.go:332-335 | reusing a flushed buffer for an op that does not continue it changes the view by exactly the op |
| Overlay.UpperIdx | lib/libfs/cache.go:226-238 | the scan returns the highest buffered block, 0 when there is none |
| Slicing.Slice | lib/libfs/wcache.go:186-228 | ops lie in consecutive blocks, inside their block, tile the range, and concatenate to the buffer; no 32- or 64-bit step wraps (the read cache's Slice is the same code) |
| Slicing.TilesReplay | lib/libfs/wcache.go:410-426 | doing the ops one by one is the positioned write of the whole range |
| Slicing.TakeReplay | lib/libfs/wcache.go:421-423 | doing the first ops only is the positioned write of their bytes |
| Slicing.OpLenIs | lib/libfs/wcache.go:209-216 | an op takes the rest of its block or all that is left |
| BlockBuffer.Buffer.ReSet | lib/libfs/cache.go:53-67 | a reused buffer is empty and belongs to the new block |
| BlockBuffer.Buffer.Skip | lib/libfs/cache.go:84-87 | an empty buffer's range starts at the given offset |
| BlockBuffer.Buffer.MergeData | lib/libfs/cache.go:73-77 | the valid range grows by the data, byte for byte, and what was valid stays |
| BlockBuffer.Buffer.GetData | lib/libfs/cache.go:89-91 | returns the valid range |
| BlockBuffer.Buffer.GetRangeData | lib/libfs/cache.go:93-97 | returns exactly the valid bytes of the asked range |
| BlockBuffer.Buffer.GetTailOffset | lib/libfs/cache.go:107-109 | is the file offset just past the valid range |
| BlockBuffer.Refill | lib/libfs/wcache.go:332-335 | after reset, skip and merge the range is the op's data alone: bytes of earlier uses never show |
| Locks.LockMap.TryLock | lib/libfs/cache.go:275-291 | one round takes the exclusive lock exactly when the block has no entry |
| Locks.LockMap.UnLock | lib/libfs/cache.go:293-300 | removes the entry of an exclusively locked block |
| Locks.LockMap.TryRLock | lib/libfs/cache.go:302-322 | one round adds a reader exactly when there is no exclusive lock |
| Locks.LockMap.RUnLock | lib/libfs/cache.go:324-334 | takes one reader off and removes the entry with the last |
| Locks.LockState.RUnlockKeeps | lib/libfs/cache.go:324-334 | a leaving reader finds its entry, and counts still equal live readers |
| Locks.LockState.UnlockKeeps | lib/libfs/cache.go:293-300 | an owner finds its entry, and the table still agrees with the owners |
| WriteCache.WCache.constructor | lib/libfs/wcache.go:46-81 | a new cache over a file is a start state whose view is the file |
| WriteCache.WCache.AllocBuffer | lib/libfs/wcache.go:83-98 | takes the front of the free list and fills it with the op; fails exactly when the list is empty, and changes nothing then |
| WriteCache.WCache.FreeBuffer | lib/libfs/wcache.go:100-105 | the buffer goes to the end of the free list |
| WriteCache.WCache.DoLru | lib/libfs/wcache.go:107-117 | the buffer is at the front of the LRU list, once, with the time of now |
| WriteCache.WCache.RemoveLru | lib/libfs/wcache.go:119-127 | the buffer is off the LRU list, the others keep their order |
| WriteCache.WCache.LruExpire | lib/libfs/wcache.go:129-148 | returns the tail of the list exactly when it has reached the expiry time, with its block; when it returns nothing, no listed buffer is that old |
| WriteCache.WCache.DirectWrite | lib/libfs/wcache.go:176-180 | the op goes to the server, fails without effect, or fails after taking effect |
| WriteCache.WCache.LockBuffer | lib/libfs/cache.go:275-291 | the spin ends: whoever waits alone waits for a background writer that takes its turn |
| WriteCache.WCache.UnLockBuffer | lib/libfs/cache.go:293-300 | the holder finds its lock entry, and the table loses that entry only |
| WriteCache.WCache.WriteMiss | lib/libfs/wcache.go:235-278 | an op on an unbuffered block takes effect once, or at most once if the server fails; an op that does not end its block goes into the first free buffer without a server call; the writer keeps the lock unless the full buffer went to a background writer; an error needs a failed server call |
| WriteCache.WCache.WriteHit | lib/libfs/wcache.go:280-346 | the same on a buffered block, whether the op is merged, written through, or replaces a flushed range; an op that continues the buffer and does not end the block makes no server call |
| WriteCache.WCache.WriteOp | lib/libfs/wcache.go:230-347 | the view changes by exactly the op, or not at all, and without error it does; the caller still holds the block exactly when it is told to unlock |
| WriteCache.WCache.Write | lib/libfs/wcache.go:404-430 | success changes the view by exactly the positioned write and returns its length; failure by the bytes before the failing op, or those and that op's; it fails only after a failed server call |
| WriteCache.WCache.FlushBuffer | lib/libfs/wcache.go:432-470 | without error the block is no longer buffered; with one, which needs a failed server call, its buffer is kept, at the front of the LRU list; the view stays |
| WriteCache.WCache.Flush | lib/libfs/wcache.go:472-523 | the view stays; without error nothing stays buffered and the server file is the view; it fails only after a failed server call |
| WriteCache.WCache.SyncRound | lib/libfs/wcache.go:563-586 | a background write takes one buffer off the channel and unlocks its block; the buffer is freed, or at the front of the LRU list if the server failed |
| WriteCache.WCache.CheckExpire | lib/libfs/wcache.go:540-554 | draining ends for any clock and any finite number of server failures, leaves only young buffers listed, touches no buffer that is young when it ends, and does not change the view |
| WriteCache.WCache.StatSize | lib/libfs/wcache.go:588-608 | the cached size is within the view, and with the server's size covers what the view was when the query began, even if the highest buffer is gone by the time its block is locked |
| WriteCache.WCache.Fstat | lib/libfs/stat.go:147-160 | without concurrent writers the size reported is the size of the view |
| WriteCache.WCache.ResizeServer | lib/libfs/file.go:299-309 | the server's part of Truncate: the view gets the asked length and keeps its bytes below it, or nothing changes; a failed call is one of these too |
| WriteCache.QueueHolds | lib/libfs/wcache.go:266-270 | a block that is locked while nobody under way holds it has its own buffer in the channel |
| ReadMerge.ReadOp | lib/libfs/rcache.go:224-246 | fills the op's part from the cached block or the server, and returns how much there was |
| ReadMerge.MergeOp | lib/libfs/wcache.go:349-402 | the write buffer's bytes win where they are, nothing else of the buffer changes |
| ReadMerge.MergedLength | lib/libfs/wcache.go:349-402 | over a server read the merged length never exceeds what the view has, and equals it exactly when the op does not end in an unseen hole |
| ReadMerge.ShortHoleHappens | lib/libfs/wcache.go:361-371 | a concrete state in which a read of two existing bytes returns one |
| Holes.ShortHoleReached | lib/libfs/wcache.go:349-402 | two Writes of one byte each over an empty file reach such a state |
| ReadMerge.LengthStep | lib/libfs/rwcache.go:78-80 | op by op, with any blocks cached: the accumulated length is at least what the server has, above what the view has only inside a cached block, and below it only if the last op ends in an unseen hole |
| ReadMerge.ReadOps | lib/libfs/rwcache.go:48-81 | the loop fills dataBuf with the view's bytes from the offset on |
| ReadMerge.DoRead | lib/libfs/rwcache.go:40-87 | every byte returned is the view's, the rest of the caller's buffer is untouched; it fails exactly when a block it needs is neither cached nor readable, and then touches nothing; the length is at least what the server has, at least what the view has iff the last block is cached or its op has no unseen hole, everything asked if the last block is cached, and more than the view has only inside a cached block |
| Prefetch.PrefetchWindow.Size | lib/libfs/cache.go:150-153 | the number of blocks, without wrapping |
| Prefetch.PrefetchWindow.Move | lib/libfs/cache.go:155-158 | the window moves to where it ended, with the same size |
| Prefetch.PrefetchWindow.Extend | lib/libfs/cache.go:165-168 | the window keeps its start and becomes so many times as long |
| Prefetch.Prefetcher.GetReadWindow | lib/libfs/rcache.go:248-254 | the window covers the block of every byte of the range, and is not empty |
| Prefetch.Prefetcher.DoPrefetch | lib/libfs/rcache.go:256-301 | the first read from block 0 issues PrefetchTimes its size behind itself, a read that touches the window issues as many blocks as the window has behind its end, any other issues nothing; all blocks ever issued are consecutive, each once |
| Prefetch.Joined | lib/libfs/rcache.go:275-300 | a further window keeps the chain contiguous, of one size, with its blocks pushed in order |
| Prefetch.ChainAdvances | lib/libfs/rcache.go:262-270 | windows of a chain are disjoint and advance by their common size |
| DirListing.ListingComplete | lib/libfs/dir.go:186-303 | in every run delivered, queued and unfetched entries make up the directory; a caller's loop that ends well has every entry once, in order |
| DirListing.ListingSucceeds | lib/libfs/dir.go:186-303 | in every run without a failed page and without an early close, a caller's loop that has ended has ended without error, with the whole directory |
| DirListing.ListingDelivers | lib/libfs/dir.go:186-303 | and if such a run can go no further, it has ended so |
| DirListing.QueueBounded | lib/libfs/dir.go:189-203 | in every run at most one page more than the cache size is queued |
| DirListing.NoLostWakeup | lib/libfs/dir.go:189-260 | unless the directory is closed early, a caller waiting without a token has a live producer that is not spinning and is at most four steps from sending one |
| DirListing.CloseWhileWaiting | lib/libfs/dir.go:305-312 | closing while the reader waits: with no token and the producer at its loop top, every continuation leaves the reader waiting; otherwise a token comes within the producer's next three steps, whatever the server answers |
| DirListing.StrandedReached | lib/libfs/dir.go:271-312 | the bad case is reached by one Readdir that finds nothing and a close |
| DirListing.ClosedAnswers | lib/libfs/dir.go:283-285 | a reader that does wake after an early close does not wait again |
| DirListing.RunsEnd | lib/libfs/dir.go:186-303 | no run takes more real steps than a measure of its start, so the listing ends; a run of real steps only is no longer than that |
| DirListing.NeverStuck | lib/libfs/dir.go:271-301 | until the caller's loop has ended or the directory is closed, some real step is possible |
| DirListing.AfterIs | lib/libfs/dir.go:204 | a page request means exactly the entries with a greater name, in order |
| DirListing.NextPage | lib/libfs/dir.go:224-229 | the page after a page's last name begins where that page ended |
| DirListing.Dir.Append | lib/libfs/dir.go:219-230 | a page goes to the end of the list; a short one ends the listing, a full one moves the start key |
| DirListing.Dir.TryRead | lib/libfs/dir.go:271-301 | one round of Readdir: an error exactly when the listing failed or was closed, a wait exactly when it is under way and the list is shorter than count, otherwise the front of the list, count entries or all there are |
| LruCache.Inclusion | lib/cache/lru.go:57-121 | after any timed trace, the smaller cache's list is the list of the cache one larger without at most one entry, with equal values and expirations |
| LruCache.HitsGrow | lib/cache/lru.go:92-106 | a hit in a cache is a hit with the same value in every larger one |
| LruCache.PlayOk | lib/cache/lru.go:80-88 | keys stay unique and the size within the capacity |
| LruCache.HitIsLatest | lib/cache/lru.go:57-106 | after any timed trace a hit returns the value of the latest Set of its key since the last Remove, and that entry is alive |
| LruCache.HoldsAll | lib/cache/lru.go:57-121 | while there was room for all, every such entry is held |
| LruCache.RecencyOrder | lib/cache/lru.go:57-121 | the list is ordered by last use, the latest in front |
| LruCache.AfterSet | lib/cache/lru.go:57-90 | after a Set its key answers with the new value until the entry expires, a new key in a full cache costs the last entry, and every other key answers as before |
| LruCache.AfterGet | lib/cache/lru.go:92-106 | a Get changes no answer |
| LruCache.AfterRemove | lib/cache/lru.go:108-121 | after a Remove its key misses and every other key answers as before |
| LruCache.LRUCache.SetExpire | lib/cache/lru.go:57-90 | the recency list changes as specified, in place for a known key, with eviction of the oldest; map and list agree |
| LruCache.LRUCache.Get | lib/cache/lru.go:92-106 | returns the value of a live entry and moves it to the front; an expired one misses and stays |
| LruCache.LRUCache.Remove | lib/cache/lru.go:108-121 | removes the entry from list and map, and says whether it was there |
| HandleTable.FileCache.NewFile | lib/libfs/filecache.go:87-125 | gives the lowest free handle, fails only when all are taken, never meets an occupied slot, and counts the reference |
| HandleTable.FileCache.GetFileEntry | lib/libfs/filecache.go:127-139 | returns the open entry, or an error for a handle that is out of range or free |
| HandleTable.FileCache.CloseFile | lib/libfs/filecache.go:141-162 | frees exactly that handle and keeps the free index lowest and the counts right |
| HandleTable.FileCache.GetMinEntryIndex | lib/libfs/filecache.go:164-172 | the first free slot from the old index on |
| HandleTable.FileCache.IsLastRefer | lib/libfs/filecache.go:174-178 | true exactly when no other open cached handle refers to the inode; its assertion holds |
| HandleTable.FileCache.AddRef | lib/libfs/filecache.go:43-50 | one more reference, counted from one |
| HandleTable.FileCache.DelRef | lib/libfs/filecache.go:52-60 | one reference fewer; no count stays at zero |
| HandleTable.Recount | lib/libfs/filecache.go:87-162 | counts stay equal to the open cached handles per inode when one slot changes |
| HandleTable.OnlyOne | lib/libfs/filecache.go:62-66 | a count of one means that no other slot refers to the inode |
| Files.Mount.Close | lib/libfs/file.go:108-151 | success frees the handle, the server has the inode's whole view, and after the last cached handle neither cache keeps the inode; failure keeps the handle and the view, and needs a handle that is not open or a failed server call |
| Files.Mount.CloseInode | lib/libfs/rwcache.go:130-142 | read blocks are dropped; write buffers are flushed and dropped, or kept on error, which needs a failed server call |
| Files.Mount.Truncate | lib/libfs/file.go:264-317 | success gives the view the asked length and its old bytes below it, on the server too, and leaves neither cache any of the inode's blocks; failure, which needs a failed server call, leaves the view or has resized it |
| Files.Mount.FlushInode | lib/libfs/rwcache.go:126-128 | the inode's view stays, and on success is what the server has; failure needs a failed server call |
| Files.Mount.Release | lib/libfs/rcache.go:338-349 | every cached read block of the inode is given back |

## Left out

- WriteInv.StepKeeps: the data drop of FlushBuffer on ENOENT (lib/libfs/wcache.go:446-459) is not a step of the model; it loses bytes on purpose.
- WriteCache.WCache.SyncRound: freeing the buffer and unlocking its block are one step; the source reads the block index from the buffer after freeing it (lib/libfs/wcache.go:575-577).
- WriteCache.WCache.Write: one client goroutine on the file at a time, with background writers taking turns; concurrent ones are covered by the state machine.
- WriteCache.WCache.LockBuffer: as for WriteCache.WCache.Write, no other client goroutine is under way.
- WriteCache.WCache.WriteMiss: as for WriteCache.WCache.Write, no other client goroutine is under way.
- WriteCache.WCache.WriteHit: as for WriteCache.WCache.Write, no other client goroutine is under way.
- WriteCache.WCache.WriteOp: as for WriteCache.WCache.Write, no other client goroutine is under way.
- WriteCache.WCache.FlushBuffer: as for WriteCache.WCache.Write, no other client goroutine is under way.
- WriteCache.WCache.Flush: as for WriteCache.WCache.Write, no other client goroutine is under way.
- WriteCache.WCache.StatSize: as for WriteCache.WCache.Write, no other client goroutine is under way.
- WriteCache.WCache.Fstat: as for WriteCache.WCache.Write, no other client goroutine is under way.
- WriteCache.WCache.ResizeServer: as for WriteCache.WCache.Write, no other client goroutine is under way.
- WriteCache.WCache.CheckExpire: no other client goroutine is under way, and the number of server failures still to come is a finite but arbitrary field of the object, as for every method that can fail.
- WriteCache.WCache.AllocBuffer: the object holds buffers as values; the block array and its reuse are modelled in BlockBuffer.
- Prefetch.Prefetcher.DoPrefetch: PrefetchTimes is between 1 and 8,000,000, above which the 32-bit window size could wrap.
- ReadMerge.DoRead: reads are non-empty, as MergeOp asserts; the blocks that the server does not serve are a parameter, fixed for the call; a cached block is not empty; prefetching at its start is modelled in Prefetch and CacheMachine.
- Files.Mount.Close: each inode has its own buffer pool here, while the source shares one pool among all files (the state machine does too), and nothing else is under way on the inode.
- Files.Mount.CloseInode: nothing else is under way on the inode.
- Files.Mount.FlushInode: nothing else is under way on the inode.
- Files.Mount.Truncate: nothing else is under way on the inode; the server file of an inode without a write buffer is not part of the object.
- DirListing.ListingComplete: the directory does not change while it is listed, and names are represented by their rank.
- Progress.EverythingEnds: a buffer that another file puts into the channel counts as a new call.
- Truncation.TruncateRestarts: the resize itself is not a step of the machine, and no other goroutine works on the file between the end of Flush and the resize.
- LruCache.AfterSet: a lifetime that ends at time 0 counts as none, as in the source (lib/cache/lru.go:100).
- Machine states are those of one file, and the read cache's channel carries this file's blocks only.
- WriteCache.WCache.LruExpire: the object's list and pool are one file's; the state machine shares them with other files.
- A failed server write is all or nothing; partial effects are not modelled.
- The read cache's own buffer pool and LRU list: a cached block may vanish at any step, and a prefetched block may fail to be cached.
- `CfaMountInfo.Flush` overwrites the cache's flush error (lib/libfs/file.go:328-332); durability is stated on the cache's Flush.
- `Stat` reads the server size before the cached size, so only Fstat's bounds are stated.
- The dentry cache, its prefix removal, and the dentry-hit paths of Stat and Fstat.
- CloseAll, unmount, O_DIRECT handles beside cached ones on one file, and statistics.
- The HTTP client, host selection, proxy requests and retries; attribute, link, rename and remove calls.
- Real time beyond a clock that does not go back; fairness of the Go scheduler.
