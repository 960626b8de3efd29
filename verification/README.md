# Blocks, block lists and cached attributes in cloudfuse

This project models the parts of cloudfuse that turn byte-level file operations
into block lists, and the tree of cached attributes, and proves what they keep
and what they produce.

**Storage** (`Storage.dfy`) is a set of staged blocks, a committed list of
blocks whose concatenation is the content, and, for a blob uploaded in one
request, a flat content without a list. Block ids are fresh whenever one is drawn.

**The write path of the block cache** (`WriteHandle.dfy` and the other `Write*`
files, `BlockIdList.dfy`). A handle keeps the lists Cooked and Cooking, a map
from block index to block, a block list from index to (id, committed, size), and
the file size. Buffers are named by pointers into a map of block records, so list
nodes, map entries and work items alias the same block. Transfers end, well or
badly, at any moment; the thread with the handle lock observes them where it
waits. The file a handle stands for is: modified cached data, else stored data of
the entry, else zeros, cut at the size. The main results are that every run keeps
it equal to the initial file with the writes spliced in, that a successful commit
makes the blob equal to it, holes, short blocks and restaging included, that a
commit recurses at most once, and that the committed list rebuilds the map.
A handle opened write-only knows the length of the stored blob and has no block
list, so the state keeps two sizes: the one it records, and the one its entries and
buffers account for. `WriteImage.dfy` describes on values what such a handle makes of
a run (`Develop`); where the two sizes agree that is the splice (`DevelopWhole`).

Three files hold runs that end wrong. `WriteProgram.dfy` gives each call on a write
handle as a relation between states, with the guards of the code (eviction once
there are as many buffers as may be, staging above the minimum number of blocks in
Cooking, the second commit, the commit before a fetch); `RunSteps.dfy` computes
single calls, and `LostRun.dfy`, `LateRun.dfy` and `ShiftRun.dfy` each prove one run
from a created file to a wrong file or blob.

**The read path** (`ReadHandle.dfy`, `ReadState.dfy`): a read-only handle under
prefetch, sliding window and random reads. `ReadProgram.dfy` gives a read as a
relation with the guards of the code, and `ReadRuns.dfy` a run to a wrong answer.

**Block list editing** (`BlockBlob.dfy` and the other `Blob*` files,
`BlockList.dfy`): writing at an offset refines a splice of the flat content,
truncation refines cutting or zero-extending it. `TruncateOpen.dfy` joins
truncation and opening.

**The attribute cache** (`AttrCache.dfy` and the other `Attr*` files): a map from
paths to nodes and a tree of parent and child pointers over the same nodes. Paths
are sequences of names. The invariant: the root is present and exists, a key is its
node's path, a child edge of a mapped node leads to the node mapped at the child's
path whose parent pointer leads back, and a child exists only if its parent does.
Replacing a node drops its child edges, so old descendants may stay in the map
unlinked; statements about subtrees are about what can be reached.

**The block pool and the LRU cache** (`BlockPool.dfy`, `LruCache.dfy`).

## Where the code does less than its operations suggest

- `getOrCreateBlock` may commit before it fetches a block. If the block's own
  entry was outgrown, the commit may cache that index while restaging it, and the
  caller then links a second buffer for it (component/block_cache/block_cache.go:1516-1582).
  `WriteLimits.SecondBlockIff` and `WriteLimits.WriteBlockIff` say when, with any number of
  outgrown entries. Evicting the first buffer removes the map entry of the second.
  Until that one is staged the handle shows the old bytes (`WriteLimits.WriteHidden`);
  a second write in between makes the loss permanent (`WriteLimits.SecondWriteWins`).
  `LostRun.LostFile` and `LostRun.LostContent` are runs in which this happens.
- The upload worker takes the length from the file size at the time it runs
  (component/block_cache/block_cache.go:1857), not the one recorded when the block was lined up
  (1762). If the block has grown in between (`WriteLimits.UploadLateIff`), the list
  that is sent does not make up the file (`WriteCommit.CommittedContent`), and what lies
  behind is read back right exactly under the conditions of `WriteBehind.ReadBackIff`,
  `WriteBehind.BehindOne` and `WriteBehind.RightBehind`. Restaging and the second commit repair
  the blob, unless that commit fails (`LateRun.LateContent`) or another outgrown block
  behind has to be read back (`ShiftRun.ShiftContent`, where the flush succeeds). The
  model has a switch `recorded` under which the worker takes the recorded length; then
  none of this occurs (`WriteGuard.RecordedMayFetch`).
- Opening write-only without truncation does not ask for the block list
  (component/block_cache/block_cache.go:462-487). Only a blob smaller than a block is read
  ahead (485-488), and its bytes come back with the first write into block 0. For any
  other byte that is not overwritten the handle stages zeros, and it commits no block
  behind the last one it has written: `WriteHandle.Handle.WriteOnce` for a write and a
  flush, `WriteHandle.Handle.WriteOnlyRun` for whole runs.
- The random-read cleanup takes the token of a finished download without looking
  at it (component/block_cache/block_cache.go:996-1013), so a failed download can be served as
  data, but only after more than ten random reads (`ReadHandle.Handle.ReadInBuffer`).
  It is the only step that makes a block wrong (`ReadState.DrainWrongIff`);
  `ReadRuns.FailureIsHandedOut` is a run that ends so.
- Writing to an empty blob without blocks drops the offset
  (component/azstorage/block_blob.go:1889-1904), `BlobWrite.FlatWriteIff`.
- A failure to read the old content of a blob without blocks is not looked at
  (component/azstorage/block_blob.go:1881), and one to read back the old bytes of touched
  blocks is logged and the write goes on (1943-1951); `BlobWrite.FlatReadIff` and
  `BlobWrite.UnreadIff` say when the result is still right.
- The block limit check of a write counts the data but not the gap in front of it
  (component/azstorage/block_blob.go:1450-1463), `BlobLimits.GapOverflows`.
- Truncating a blob that has content but no blocks, with a block size given, zeroes
  it when it grows and fails when it shrinks (component/azstorage/block_blob.go:1799-1812),
  `BlobTruncate.TruncatedIff`.
- `markAncestorsInCloud` stops at a directory it has just created, so an existing
  ancestor further up can stay marked as not in the cloud
  (component/attr_cache/attr_cache.go:299-315), `AttrCache.CacheTreeMap.MarkAncestorsInCloud`.

## Model

| member | source | states |
|---|---|---|
| WriteHandle.Handle.Session | component/block_cache/block_cache.go:1430-1684 | Over every run of writes and flushes, with uploads and downloads ending at any moment in between, the file the handle shows is the initial file with the accepted writes spliced in, in order; on a handle opened write-only it is what Develop makes of the run, with the bytes read ahead brought back or not; after a successful flush the committed blob is that file byte for byte; where uploads stage what was recorded no flush is refused |
| WriteHandle.Handle.Step | component/block_cache/block_cache.go:1430-1472 | A write is refused if and only if it may have to fetch a block that it must not fetch (MayWrite, which counts the buffers there are), a flush if and only if it might read back from the wrong place (CommitSafe); either is decided before the call |
| WriteHandle.Handle.WriteFile | component/block_cache/block_cache.go:1430-1472 | The file becomes the old one with the first n bytes of the data spliced in at the offset, n being all of them on success, provided no block the write may have to fetch is in the way (MayWrite); a read-ahead comes back with the first bytes written into block 0, and with nothing else |
| WriteHandle.Handle.WriteBlock | component/block_cache/block_cache.go:1443-1470 | One round of the loop: nothing is written if the block cannot be had, else a non-empty prefix is spliced in, and the rest of the range may still be written; a failed read-ahead fails the round and drops the buffer |
| WriteHandle.Handle.CopyIn | component/block_cache/block_cache.go:1445-1468 | Copying into a block that was got hold of splices exactly what fits and needs no further condition |
| WriteGuard.WriteAllowedExact | component/block_cache/block_cache.go:1516-1543 | The guard of a write over all blocks is decided by the cached and the listed ones, so a caller can evaluate it before the call |
| WriteGuard.OneBlockFree | component/block_cache/block_cache.go:1474-1596 | A write into one block that is cached, or that was never written, is always allowed: rewriting an outgrown block and a sparse write behind a short last block are |
| WriteGuard.RecordedMayWrite | component/block_cache/block_cache.go:1516-1543 | Where uploads stage what was recorded, a write is allowed if and only if no block of the range that is not cached, or that an earlier one may push out, is both outgrown and not committed |
| WriteGuard.RoomyMayWrite | component/block_cache/block_cache.go:1493-1543 | With buffers for the whole range, and no missing block waiting for a commit, a write is allowed if and only if the missing blocks can be read back; cached ones do not matter, outgrown or not |
| WriteGuard.RecordedMayFetch | component/block_cache/block_cache.go:1516-1582 | There the same holds for one block, and every commit restages from the right place |
| WriteGuard.CleanMayFetch | component/block_cache/block_cache.go:1516-1582 | On a handle that is not flagged dirty every block may be fetched |
| WriteGuard.CommitAllowedExact | component/block_cache/block_cache.go:2049-2081 | The guard of a flush is decided by the listed entries |
| WriteGuard.MayWriteOnward | component/block_cache/block_cache.go:1443-1470 | Getting hold of the first block of a range, with evictions and a commit on the way, leaves the whole range writable |
| WriteImage.EditedMore | component/block_cache/block_cache.go:1443-1470 | Writing block by block composes to one write, also on a handle that accounts for less than the length it records |
| WriteImage.DevelopWhole | component/block_cache/block_cache.go:1430-1472 | On a handle that accounts for its whole file, what it makes of a run is the initial file with the writes spliced in |
| WriteEdit.WriteDataKeeps | component/block_cache/block_cache.go:1451-1466 | Overwriting part of a cached block keeps the invariant and splices the logical file at the block's place |
| WriteHandle.Handle.GetOrCreateBlock | component/block_cache/block_cache.go:1474-1659 | The block handed out is the one for the index, in Cooking, with no transfer pending and holding the logical bytes; the file and all other blocks are unchanged, and what could be fetched still can; no index but this one is newly cached unless a commit restaged it, and with a buffer left nothing is evicted; indices from the block limit on are refused |
| WriteHandle.Handle.ReopenBlock | component/block_cache/block_cache.go:1598-1656 | A cached block comes back to Cooking after its transfer has ended; a failed download drops it and fails |
| WriteHandle.Handle.BringBack | component/block_cache/block_cache.go:1598-1656 | When block 0 of a small blob opened write-only is got for a write, the bytes read ahead are in it: the file gains them at its beginning, and the range may still be written |
| WriteHandle.Handle.CreateBlock | component/block_cache/block_cache.go:1493-1596 | A missing block is fetched or created and linked without touching the file |
| WriteHandle.Handle.FetchBytes | component/block_cache/block_cache.go:1516-1581 | A block below the end of the file gets its stored bytes, after a commit if it was staged only, and zeros if it was never written |
| WriteHandle.Handle.MakeRoom | component/block_cache/block_cache.go:1494-1497 | Evicting an uploaded block to make room leaves the file alone |
| WriteHandle.Handle.LinkBlock | component/block_cache/block_cache.go:1576-1596 | Linking a block for an uncached index keeps the invariant |
| WriteHandle.Handle.Upload | component/block_cache/block_cache.go:1849-1968 | The end of an upload, good or bad, keeps the invariant and the file, whether it stages the recorded length or the one the block has by then |
| WriteHandle.Handle.Download | component/block_cache/block_cache.go:1205-1427 | The end of a download, good or bad, keeps the invariant and the file |
| WriteHandle.Handle.Workers | component/block_cache/threadpool.go:130-166 | Any number of work items ending keeps the invariant and the file, and touches no list and no map |
| WriteHandle.Handle.Await | component/block_cache/block.go:83-95 | A wait on the channel of a linked block ends: an open, empty channel always has exactly one work item; the channel is closed at most once |
| WriteHandle.Handle.LineupItem | component/block_cache/block_cache.go:1753-1791 | The dirty block gets a fresh id and an uncommitted entry with its current length, and moves to Cooked with one upload pending |
| WriteHandle.Handle.StageBlocks | component/block_cache/block_cache.go:1662-1684 | Staging up to cnt dirty blocks keeps the file; if cnt covers all of Cooking no dirty block is left there |
| WriteHandle.Handle.WaitAndFreeUploadedBlocks | component/block_cache/block_cache.go:1793-1846 | Waiting for uploads and evicting uploaded blocks keeps the file; a failed upload goes back to Cooking still dirty |
| WriteHandle.Handle.StageAll | component/block_cache/block_cache.go:1972-2010 | On success of the staging passes nothing modified is left in the cache and no upload is pending |
| WriteShuffle.ListsClean | component/block_cache/block_cache.go:1995-2010 | With no dirty block in Cooking and none uploading in Cooked nothing modified is left |
| WriteHandle.Handle.StageZeroBlock | component/block_cache/block_cache.go:2221-2268 | The zero block is staged whole under a fresh id or the call fails after its attempts |
| WriteHandle.Handle.GetBlockIDList | component/block_cache/block_cache.go:2087-2219 | The ids to commit concatenate to the whole file: every index up to the last has an entry, entry k starts at byte k*blockSize once fillers are counted, holes are zero blocks, and exactly the outgrown entries are followed by a filler and listed for restaging |
| WriteListLoop.LoopEntry | component/block_cache/block_cache.go:2110-2170 | Appending an entry keeps the list laid out at multiples of the block size |
| WriteListLoop.LoopFiller | component/block_cache/block_cache.go:2134-2168 | The id of a short block in the middle followed by a filler of zeros up to the block size keeps the list laid out, and the block is listed for restaging |
| WriteListLoop.LoopZero | component/block_cache/block_cache.go:2171-2205 | A hole gets an entry for the shared zero block |
| WriteListLoop.LoopDone | component/block_cache/block_cache.go:2087-2219 | At the end the list covers the file exactly and the map has no index gap |
| WriteHandle.Handle.CommitBlocks | component/block_cache/block_cache.go:1972-2085 | On success the committed blob equals the logical file, all entries are committed, the handle is clean and the stored list rebuilds the map; only outgrown entries are newly cached, the last of them certainly is, all of them are if there are buffers enough, and without any the cache map is as before; it calls itself at most once |
| WriteHandle.Handle.SendList | component/block_cache/block_cache.go:2022-2084 | Committing the list and restaging |
| WriteHandle.Handle.RestageBlocks | component/block_cache/block_cache.go:2049-2076 | Each short block is read back with its filler and marked dirty at its own position; afterwards no entry is outgrown, so the second commit has nothing to restage; the block read back last is cached, and every one is if none had to make room |
| WriteRestage.RestagePosition | component/block_cache/block_cache.go:2050-2074 | The list position found for the next short block is its block index, and cutting the id behind it removes exactly that block's filler |
| BlockIdList.InterleaveCut | component/block_cache/block_cache.go:2071-2072 | Cutting the entry behind the first short block leaves the list without that filler |
| BlockIdList.FirstIndex | component/block_cache/block_cache.go:2052-2053 | The search returns the first position of the id |
| WriteRestage.RestageEnd | component/block_cache/block_cache.go:2049-2081 | With all listed blocks restaged no stale entry is left |
| WriteRestage.CommitRoundTrip | component/block_cache/block_cache.go:2043-2047 | A list committed without fillers is accepted on opening and rebuilds exactly the map the handle holds |
| WriteRestage.CommitPersists | component/block_cache/block_cache.go:2022-2047 | After such a commit the blob equals the logical file |
| WriteOutgrown.StaleIsCached | component/block_cache/block_cache.go:2049-2081 | Of the entries that were outgrown before the commit the last is cached afterwards, and with buffers for all of them every one is |
| WriteCommit.CommittedContent | component/block_cache/block_cache.go:2022-2047 | The content of the list that is sent is the logical file if and only if no entry of it has more bytes in storage than were recorded |
| WriteBehind.ReadBackIff | component/block_cache/block_cache.go:2049-2062 | After the commit, with any number of overlong entries, a block reads back right from its place if and only if its bytes are the ones that come to lie there: pushed back by e bytes in all, the last e bytes of what the list has in front of it, then its own |
| WriteBehind.BehindOne | component/block_cache/block_cache.go:2049-2062 | With one overlong entry in front, e bytes too long, a block reads back right if and only if in the file each of its bytes equals the one e bytes before it |
| WriteBehind.RightBehind | component/block_cache/block_cache.go:2049-2062 | The block right behind the first overlong entry reads back right if and only if it is zero |
| WriteBehind.BeforeLate | component/block_cache/block_cache.go:2049-2062 | Up to the first overlong entry every block reads back right |
| WriteLimits.WriteBlockIff | component/block_cache/block_cache.go:1493-1582 | A write into a listed block that is not cached, whatever other entries are outgrown: the buffer linked for it is the only one for the index and holds its bytes if and only if the commit, if it needs one, has not cached the block and its committed bytes can be read back; the guard MayFetchAt is enough, and decides it exactly when no commit is needed, or the block is the last one outgrown or there are buffers enough |
| WriteLimits.SecondBlockIff | component/block_cache/block_cache.go:1516-1582 | When the block needs a commit first, the caller links a second buffer for it if and only if the commit has left it cached; that takes an outgrown entry of its own, and comes to that if it is the last outgrown one or there are buffers enough for all of them |
| WriteLimits.WriteHidden | component/block_cache/block_cache.go:1528-1596 | With a second buffer linked and written, evicting the first hides the write: the map entry is gone, the modified buffer stays in Cooking, and the handle shows the stored bytes, which is right exactly if the write changed nothing |
| WriteLimits.StagingShows | component/block_cache/block_cache.go:1753-1791 | Staging the hidden buffer brings the write back |
| WriteLimits.SecondWriteWins | component/block_cache/block_cache.go:1474-1596 | A second write to the block before that is staged last, and the first one is lost exactly where it changed bytes the second one does not overwrite |
| WriteLimits.UploadLateIff | component/block_cache/block_cache.go:1857-1967 | After an upload storage has more bytes than were recorded if and only if the block has grown in between and the worker takes the length it finds |
| WriteLimits.UploadLength | component/block_cache/block_cache.go:1857 | The length the worker computes is the recorded one if and only if the file has not grown or the block was full |
| LostRun.LostFile | component/block_cache/block_cache.go:1474-1596 | A run of calls from a created file, by the guards of the code: byte 0, a flush that fails, block 1, byte 1, byte 4. It ends in a state in which the handle shows another file than was written |
| LostRun.LostContent | component/block_cache/block_cache.go:1972-2047 | The same run with one more write into block 0 and a flush that succeeds ends with a blob that is not the file written |
| LateRun.LateContent | component/block_cache/block_cache.go:2022-2084 | A run from a created file with a late upload: the flush fails before the second list, and leaves a blob of ten bytes for a file of nine |
| ShiftRun.ShiftContent | component/block_cache/block_cache.go:2049-2084 | A run from a created file in which a late upload shifts a block that has to be read back: the flush succeeds, and the blob is not the file written |
| WriteHandle.Handle.FlushFile | component/block_cache/block_cache.go:554-588 | On success the blob equals the file, except under lazy write before close and on a handle opened write-only that nothing was written to; on failure the handle and its file are intact |
| WriteHandle.Handle.Create | component/block_cache/block_cache.go:410-433 | A created file starts empty and sound |
| WriteHandle.Handle.ValidateBlockList | component/block_cache/block_cache.go:507-534 | Accepts exactly the lists whose blocks are full but the last, which may be shorter, and builds the index map from them |
| WriteHandle.Handle.OpenFile | component/block_cache/block_cache.go:436-501 | For reading and writing, opens exactly the blobs with such a list and shows their content |
| WriteOpen.OpenInv | component/block_cache/block_cache.go:462-477 | The state after opening satisfies the invariant and shows the blob |
| WriteHandle.Handle.OpenWriteOnly | component/block_cache/block_cache.go:480-494 | Opened write-only without truncation the handle records the blob's length and accounts for none of it; a blob smaller than a block is read ahead; any write is allowed |
| WriteHandle.Handle.WriteOnce | component/block_cache/block_cache.go:436-588 | Opened so, one write and a flush that succeed leave the spliced content if and only if the blob is smaller than a block and the write starts in block 0, or every stored byte outside the write is zero and the write reaches the last block |
| WriteHandle.Handle.WriteOnlyRun | component/block_cache/block_cache.go:436-588 | Opened so, any run that wrote something and ends with a successful flush leaves the replayed content if and only if the bytes read ahead came back, or every stored byte that was not overwritten is zero and some write reached the last block |
| WriteImage.WriteOnlyRunIff | component/block_cache/block_cache.go:1430-1472 | The same condition on the file the handle shows, for any operations and outcomes |
| WriteImage.WriteOnlyIff | component/block_cache/block_cache.go:1430-1472 | The same for one write, with the condition on its offset and length |
| WriteImage.SwapFront | component/block_cache/block_cache.go:1598-1656 | Bringing the bytes read ahead back late, after writes behind block 0, gives what bringing them back first does |
| WriteHandle.Handle.OpenTruncated | component/block_cache/block_cache.go:457-461 | Opening with truncation shows an empty file |
| WriteHandle.Handle.ReleaseFile | component/block_cache/block_cache.go:604-662 | On success the blob equals the file, with the second exception of flushing; every wait ends and every linked buffer is given back with no transfer pending |
| ReadHandle.Handle.ReadInBuffer | component/block_cache/block_cache.go:669-715 | Inside one block the answer is exactly what the handle shows there before the call (Shown): the buffer if the block is open to readers, the file's bytes otherwise. In general the bytes are the file's, all of them or up to the end, if no download has failed or the reader has not been found to be a random one; end of file is reported only at the end; a block is never missing right after it was scheduled |
| ReadHandle.Handle.GetBlock | component/block_cache/block_cache.go:750-966 | Returns the downloaded block for the offset, end of file exactly beyond it; a block that was open to readers comes back as it was, any other holds the file's bytes; the "not found after scheduling" error does not occur; a download failure is reported only if one has happened |
| ReadHandle.Handle.OpenBlock | component/block_cache/block_cache.go:887-964 | The first reader closes the channel, which is open, prefetches on and moves the block to Cooked; the block survives its own prefetch and holds its bytes |
| ReadHandle.Handle.StartPrefetch | component/block_cache/block_cache.go:974-1099 | The requested index is mapped afterwards; in sequential mode no block in Cooking is touched |
| ReadHandle.Handle.LineupBlocks | component/block_cache/block_cache.go:1062-1096 | Lining up further blocks does not unmap the requested one |
| ReadHandle.Handle.Allocate | component/block_cache/block_cache.go:1043-1060 | New buffers join the free ones and nothing in Cooking is touched |
| ReadHandle.Handle.Cleanup | component/block_cache/block_cache.go:976-1041 | Buffers with a pending download are left alone, map entries only disappear, at most five free buffers remain; with no download pending the whole new state is given (Cleaned) |
| ReadHandle.Handle.RefreshBlock | component/block_cache/block_cache.go:1102-1177 | End of file exactly for indices behind it; otherwise the index is mapped to a block in Cooking, and no block with a pending download is reused |
| ReadHandle.Handle.AssignFirst | component/block_cache/block_cache.go:1147-1174 | The first free block gives up its old index and takes the new one |
| ReadHandle.Handle.Finish | component/block_cache/block_cache.go:1205-1427 | The end of a download keeps the invariant |
| ReadHandle.Handle.Await | component/block_cache/block.go:83-95 | A wait on an assigned block ends with its channel filled or closed |
| ReadHandle.Handle.Release | component/block_cache/block_cache.go:624-659 | Every download is waited for and every buffer goes back |
| ReadState.NoHang | component/block_cache/block_cache.go:887-889 | An assigned block with an open, empty channel has a work item |
| ReadState.RefreshStays | component/block_cache/block_cache.go:1102-1177 | Reusing a buffer changes no block in Cooking |
| ReadState.WrongIff | component/block_cache/block_cache.go:996-1013 | Some read inside a block is answered wrongly if and only if the block is open to readers without holding its bytes, and then its failed download was passed over by a cleanup |
| ReadState.DrainWrongIff | component/block_cache/block_cache.go:996-1013 | A cleanup that takes a token makes a block wrong if and only if the block is that one, the token says its download failed, and the buffer does not happen to hold the bytes |
| ReadState.DownloadNeverWrongs | component/block_cache/block_cache.go:1205-1427 | The end of a download, good or bad, makes no block wrong, nor does opening one whose download ended well |
| ReadState.ReuseNeverWrongs | component/block_cache/block_cache.go:1102-1177 | Taking a buffer from the pool or giving one to another block makes no block wrong |
| ReadState.MoveNeverWrongs | component/block_cache/block_cache.go:976-1041 | Moving a block between the lists or giving its buffer back makes no block wrong |
| ReadRuns.FailureIsHandedOut | component/block_cache/block_cache.go:669-1041 | A run of reads from a newly opened handle, by the guards of the code, with downloads ending in between and one of them failing: one sequential read and eleven random ones end in a handle on which a read of block 3 is answered wrongly |
| ReadRuns.CleanedIs | component/block_cache/block_cache.go:976-1041 | The cleanup of the eleventh random read of that run drains the token of the failed download of block 3 with the others and gives one buffer back |
| ReadRuns.DrainedFailureIsServed | component/block_cache/block_cache.go:996-1013 | On the handle before that cleanup, cleaning up and reading the block succeeds with the wrong byte |
| ReadHandle.Handle.Session | component/block_cache/block_cache.go:669-1177 | In every run of reads, sequential or random, under any prefetch and with downloads ending at any moment, every answer is the file's bytes at its place, complete unless the file ends, no buffer could be had or a failed download is reported, as long as no download fails or there were at most ten random reads |
| ReadHandle.Handle.PrefetchOnOpen | component/block_cache/block_cache.go:485-494 | What opening downloads ahead keeps the invariant |
| BlockList.BlockOffsetList.BinarySearch | common/types.go:344-364 | Finds the block holding the offset exactly if there is one |
| BlockList.BlockOffsetList.FindBlocksToModify | common/types.go:389-413 | Marks exactly the blocks from the one holding the offset to the last one starting no later than the end of the write, returns their total size, and says whether the write reaches the end or lies behind it |
| BlockList.BlockOffsetList.ValidateBlockListAgainstFileSize | common/types.go:320-328 | True exactly if the list ends at the file size |
| BlockList.BlockAt | common/types.go:344-364 | Every position below the end lies in a block |
| BlockList.EqualBlocks | common/types.go:297-310 | Contents that agree on every block of a contiguous list are equal |
| BlockBlob.BlockBlob.GetFileBlockOffsets | component/azstorage/block_blob.go:1368-1411 | The list has the stored ids and sizes, back to back from byte 0 |
| BlockBlob.BlockBlob.Write | component/azstorage/block_blob.go:1864-1960 | The new content is the splice of what was read of the old one, in both branches and however reading it went (Reading); with everything read it is the splice of the old content except behind the start of an empty blob without blocks; a transfer or limit error leaves the content alone; the branch the language leaves open is taken exactly with no block left and no block size configured |
| BlockBlob.BlockBlob.WriteFlat | component/azstorage/block_blob.go:1880-1912 | Without blocks the new content is FlatWrite of what the read of the whole blob left in the buffer: all of it, nothing after a failed attribute call, anything of the old length after a broken download |
| BlobWrite.FlatWriteIff | component/azstorage/block_blob.go:1880-1912 | That branch is a splice if and only if the blob is not empty or the write starts at byte 0 (and, for empty data, does not start behind the end) |
| BlobWrite.FlatReadIff | component/azstorage/block_blob.go:1881-1908 | The result is still the splice if and only if every old byte outside the write was read; with the size unknown, if and only if the write covers the blob from its first byte |
| BlockBlob.BlockBlob.WriteBlocks | component/azstorage/block_blob.go:1914-1958 | The branch for blobs with blocks |
| BlockBlob.BlockBlob.StageWrite | component/azstorage/block_blob.go:1928-1958 | The buffer put together from old bytes, zeros and data makes the committed content the splice |
| BlobWrite.UnreadIff | component/azstorage/block_blob.go:1937-1951 | With the old bytes of the touched blocks read badly or not at all the result is the splice if and only if every old byte in them outside the write was read |
| BlockBlob.BlockBlob.CreateNewBlocks | component/azstorage/block_blob.go:1443-1478 | Appends exactly as many blocks as gap and data need, contiguous, full but the last, under fresh ids; refuses when the data alone exceeds the limit; the outcome the language leaves open occurs exactly with no block left and no block size configured |
| BlobLimits.GapOverflows | component/azstorage/block_blob.go:1450-1478 | The limit check counts the data and not the gap: the list exceeds the limit exactly if gap and data together need more than what is left |
| BlockBlob.BlockBlob.StageAndCommitModifiedBlocks | component/azstorage/block_blob.go:1963-2017 | Each marked block gets its consecutive piece of the data, every other keeps its bytes, all keep their ids; failing leaves the committed blob |
| BlobLimits.SharedIdOverwritten | component/azstorage/block_blob.go:1972-1977 | Staging a block under its old id changes every position of the list with that id and no other |
| BlobWrite.WriteDone | component/azstorage/block_blob.go:1914-1958 | Pieces staged at the marked blocks make up the splice |
| BlobBlocks.ExtendsExact | component/azstorage/block_blob.go:1466-1476 | Appending up to an end takes exactly the rounded-up number of blocks |
| BlockBlob.BlockBlob.TruncateFile | component/azstorage/block_blob.go:1649-1708 | The content becomes the old one cut or zero-extended to the new size (function Truncated); failing leaves it; the list stays within the block limit; with a block size given the legal layout stays legal; the "truncate buffer smaller than block" error does not occur; a blob without blocks cannot be shrunk with a block size given |
| BlobTruncate.TruncatedIff | component/azstorage/block_blob.go:1799-1812 | Truncation resizes if and only if no block size is given, or the blob has blocks or no content, or the size does not change, or what would be kept is zero |
| BlockBlob.BlockBlob.TruncateFileUsingBlocks | component/azstorage/block_blob.go:1751-1861 | The block list branch |
| BlockBlob.BlockBlob.TruncateList | component/azstorage/block_blob.go:1764-1831 | The list truncation starts from makes up the old content; inconsistent exactly for a blob of more than 256 MiB without blocks |
| BlockBlob.BlockBlob.PartitionBlob | component/azstorage/block_blob.go:1799-1812 | A blob uploaded whole becomes fresh blocks that make up its content |
| BlockBlob.BlockBlob.TruncateFileWithoutBlocks | component/azstorage/block_blob.go:1710-1749 | Read, resize, upload |
| BlockBlob.BlockBlob.RemoveBlocksTruncate | component/azstorage/block_blob.go:1582-1647 | The list cut to the new size makes up the cut content; the cut block gets a fresh id; fails on an empty list |
| BlockBlob.BlockBlob.SearchStart | component/azstorage/block_blob.go:1602-1606 | The number of blocks that start before the size |
| BlockBlob.BlockBlob.CreateNewBlocksTruncate | component/azstorage/block_blob.go:1482-1580 | The grown list makes up the zero-extended content, within the block limit and with the layout legal |
| BlockBlob.BlockBlob.TruncateBlockSize | component/azstorage/block_blob.go:1500-1520 | The block size, recomputed if needed, keeps the list within the limit; with no block left to use the division has divisor zero |
| BlockBlob.BlockBlob.AdjustLastBlock | component/azstorage/block_blob.go:1541-1569 | A short last block is filled up from the blob under a fresh id |
| BlobTruncate.RecomputedFits | component/azstorage/block_blob.go:1509-1516 | The recomputed block size fits the data into the available blocks |
| BlockBlob.BlockBlob.StageAndCommit | component/azstorage/block_blob.go:2019-2109 | Every block of the committed list holds its part of the target; one zero buffer serves all zero blocks |
| BlobTruncate.ExtendedReady | component/azstorage/block_blob.go:1571-1577 | Zero blocks behind a list extend its content with zeros |
| BlobTruncate.ShrunkReady | component/azstorage/block_blob.go:1618-1645 | Cutting the list and its last block cuts the content |
| TruncateOpen.TruncateAndOpen | component/block_cache/block_cache.go:2444-2457 | Truncating through the cache and opening for writing succeeds on a legal layout and shows the resized content |
| BlobLimits.CalculateBlockSize | component/azstorage/block_blob.go:1174-1217 | Succeeds exactly up to the blob limit; block size times block limit covers the file, the block size can be staged, is a multiple of 8 above the default, and wastes less than 8 bytes a block; the check after rounding never fires |
| AttrCache.CacheTreeMap.constructor | component/attr_cache/cacheMap.go:81-95 | The cache starts with its root, existing |
| AttrCache.CacheTreeMap.Insert | component/attr_cache/cacheMap.go:119-137 | Refused exactly for the root and when full; otherwise the node is in the tree and the map |
| AttrCache.CacheTreeMap.InsertItem | component/attr_cache/cacheMap.go:140-165 | The node is mapped and linked; between it and its nearest usable ancestor new directories with only the child on the way replace what was there; every other path keeps its node; the tree invariant is kept |
| AttrInsert.AttachTree | component/attr_cache/cacheMap.go:154-164 | Hanging a childless node under its parent keeps the tree invariant, also where it replaces a node |
| AttrInsert.InsertAbove | component/attr_cache/cacheMap.go:147-152 | Inserting through a freshly created parent adds up to one insertion |
| AttrCloud.CreatedLevels | component/attr_cache/cacheMap.go:140-165 | After creating a directory every missing level exists and counts as in the cloud |
| AttrCache.CacheTreeMap.MarkDeleted | component/attr_cache/cacheMap.go:199-223 | Every existing node reachable from the node is marked deleted with the time given and nothing else changes; never the root |
| AttrMarks.DeletedBelow | component/attr_cache/cacheMap.go:199-223 | Afterwards nothing reachable exists, everything else is as before, and the tree invariant holds |
| AttrTree.ExistsUp | component/attr_cache/cacheMap.go:205-208 | Nothing reachable from a node exists unless the node does, which makes the early return right |
| AttrCache.CacheTreeMap.InvalidateItem | component/attr_cache/cacheMap.go:225-248 | Every node reachable through valid nodes loses its valid flag and nothing else changes; never the root |
| AttrInvalid.InvalidatedBelow | component/attr_cache/cacheMap.go:225-248 | Afterwards nothing reachable exists and everything not reachable is as before |
| AttrCache.CacheTreeMap.InvalidateDirectory | component/attr_cache/attr_cache.go:233-247 | Exactly the files reached through valid directories, and what is valid below such files, are invalidated |
| AttrFiles.InvalidatedFiles | component/attr_cache/attr_cache.go:233-247 | Every such file is invalid afterwards; the directories and everything not reachable are untouched |
| AttrCache.CacheTreeMap.CollectExpired | component/attr_cache/attr_cache.go:376-387 | The expired keys, never the root |
| AttrCache.CacheTreeMap.CleanupExpiredEntries | component/attr_cache/attr_cache.go:368-413 | Both passes and the sort: a node other than the root stays if and only if it, or something reachable from it, had not expired; what stays keeps its time stamp and exists as before |
| AttrEvict.SweptIff | component/attr_cache/attr_cache.go:373-412 | The same for any collected keys with descendants first |
| AttrOrder.DescendingDeepest | component/attr_cache/attr_cache.go:389-392 | Keys in descending string order have every path before its ancestors |
| AttrCache.CacheTreeMap.RemoveExpired | component/attr_cache/attr_cache.go:394-411 | The second pass on whatever the cache is by then: the tree invariant is kept, only expired collected nodes are removed, the others keep node, time stamp, existence and their place below their parent |
| AttrEvict.ExpiredGuardsUnexpired | component/attr_cache/attr_cache.go:389-411 | After the pass an expired key is left only if something reachable from it has not expired or was not collected |
| AttrEvict.EvictTree | component/attr_cache/attr_cache.go:400-408 | Removing a childless node keeps the tree invariant, also for a node that is no longer linked |
| AttrCache.CacheTreeMap.MoveCachedItem | component/attr_cache/attr_cache.go:250-279 | With source and destination apart and room in the cache: a path is reachable below the destination exactly if it was reachable and existing below the source, with the same attributes, type, time and cloud flag; nothing reachable below the source exists; outside, only existing ancestors of the destination gain a child; the tree invariant is kept |
| AttrMove.LandsOnSource | component/attr_cache/attr_cache.go:250-279 | With the destination right above the source, a child with the source's own name lands on the source's path, and deleting the nodes that were there before leaves it existing: something is reachable at the source afterwards |
| AttrMove.StepMoved | component/attr_cache/attr_cache.go:271-273 | Moving one child leaves the other children, moved or not, as they are |
| AttrMove.Complete | component/attr_cache/attr_cache.go:274-276 | With the children moved, deleting the source completes the move |
| AttrCache.CacheTreeMap.MarkInCloud | component/attr_cache/cacheMap.go:250-266 | Sets the flag of directories only, and never takes it from the root |
| AttrCache.CacheTreeMap.UpdateAncestorsInCloud | component/attr_cache/attr_cache.go:873-902 | If the flags of all ancestors were right before one child changed, stopping at the first unchanged one gives what recomputing every ancestor gives |
| AttrCloud.FullMatches | component/attr_cache/attr_cache.go:873-902 | After recomputing every ancestor each flag says whether there is an existing child in the cloud |
| AttrCloud.FullIdle | component/attr_cache/attr_cache.go:895-898 | Where the flags are right there is nothing to recompute |
| AttrCache.CacheTreeMap.MarkAncestorsInCloud | component/attr_cache/attr_cache.go:295-316 | All ancestors exist and are in the cloud afterwards if and only if at most one directory had to be created, or the nearest existing one was the root or in the cloud already |
| AttrCloud.CreatedMany | component/attr_cache/attr_cache.go:299-315 | If two levels or more are created the walk stops at the new parent, and an existing ancestor that was not in the cloud stays so |
| AttrCache.CacheTreeMap.DeleteDirectory | component/attr_cache/attr_cache.go:204-221 | Not found exactly if there is no existing entry; otherwise nothing reachable exists and the ancestors' flags are right again |
| BlockPool.BlockPool.NewBlockPool | component/block_cache/blockpool.go:63-104 | No pool exactly for an invalid configuration; no send blocks; all blocks are in the free channels |
| BlockPool.BlockPool.MustGet | component/block_cache/blockpool.go:138-162 | A free block nobody holds, all zeros; none only if both channels are empty |
| BlockPool.BlockPool.TryGet | component/block_cache/blockpool.go:165-179 | A free block nobody holds, all zeros, never a priority one |
| BlockPool.BlockPool.Release | component/block_cache/blockpool.go:182-189 | The block is queued for the reset thread; it is never deleted |
| BlockPool.BlockPool.ResetBlock | component/block_cache/blockpool.go:192-211 | The block is zeroed and passed on to a free channel; it is never deleted |
| BlockPool.Total | component/block_cache/blockpool.go:63-104 | Channels, reset thread and callers together hold every block but the zero block |
| BlockPool.HeldOnce | component/block_cache/blockpool.go:138-189 | A block in a caller's hands is nowhere else |
| BlockPool.ReleaseHasRoom | component/block_cache/blockpool.go:182-189 | A held block always finds room in the reset channel |
| BlockPool.ResetHasRoom | component/block_cache/blockpool.go:201-210 | The reset thread always finds room in one of the free channels |
| BlockPool.PutDownKeeps | component/block_cache/blockpool.go:195-211 | Passing a zeroed block on keeps every block in exactly one place |
| LruCache.LRUCache.Get | common/cache_policy/lru_policy.go:61-70 | A hit moves the key to the front and changes nothing else |
| LruCache.LRUCache.Put | common/cache_policy/lru_policy.go:86-103 | For a new key: added if there is room, else the least recently used clean block goes first, else refused; list, map and total stay in agreement |
| LruCache.LRUCache.Evict | common/cache_policy/lru_policy.go:164-179 | Removes the least recently used clean block, if there is one |
| LruCache.LRUCache.RemoveKey | common/cache_policy/lru_policy.go:133-146 | Removes the key from list, map and total |
| LruCache.LRUCache.Resize | common/cache_policy/lru_policy.go:73-83 | The total follows the new size |
| LruCache.LRUCache.Run | common/cache_policy/lru_policy.go:61-146 | With one block size every run of lookups, puts, removals and changes of the dirty mark keeps the occupancy less than a block above the capacity |
| LruCache.PutsBeyond | common/cache_policy/lru_policy.go:86-103 | With blocks of different sizes it need not: one eviction makes room for a block of any size |
| LruCache.OccupancyRemove | common/cache_policy/lru_policy.go:133-146 | The total of the list without a key is less by that block's size |

## Left out

- WriteHandle.Handle.WriteFile: requires `MayWrite`, which looks at every block that an eviction or a commit during the call might force it to fetch, given the number of buffers; which block is evicted depends on which transfers end in time. `WriteLimits.WriteBlockIff` gives the exact condition for a write inside one block, `WriteGuard.RoomyMayWrite` the one for several where none is evicted.
- WriteHandle.Handle.FlushFile: requires `CommitSafe` on a dirty handle, which is decided before the call; whether an entry ends up overlong depends on pending uploads succeeding, and whether a block has to be read back on evictions in between. For the list as it is sent `WriteBehind.ReadBackIff` says exactly which blocks read back right. CommitBlocks, SendList and ReleaseFile require the same.
- WriteHandle.Handle.Upload: the end of an upload is one step. The code sets Synced before it clears Dirty, and a thread between the two could lose the dirty mark.
- WriteHandle.Handle.OpenFile: of what opening downloads ahead only the first block of a small file is modelled; prefetching several blocks on open belongs to the read path.
- WriteHandle.Handle.OpenWriteOnly: a block of zeros stands for the block read ahead until it is first got for a write, when its download turns out to have ended well or badly; the blob it is read from does not change in between. Prefetching on open onto a write-only handle is not modelled.
- WriteProgram.Does: in the runs every transfer ends well and the uploads a pass lines up end before the pass waits; a flush may fail where a list is sent.
- WriteHandle.Handle.GetOrCreateBlock: requires of a block that is not cached that it may be fetched (`MayFetch`); CreateBlock and FetchBytes require the same. What a block does that is outgrown and not committed is stated by `WriteLimits.SecondBlockIff`, `WriteLimits.WriteHidden` and `WriteLimits.SecondWriteWins`.
- WriteHandle.Handle.CreateBlock: the buffer is taken from the pool at the moment it is linked, not before the block is fetched.
- WriteHandle.Handle.Session: reads on a write handle and the null-block path are not part of it.
- BlockBlob.BlockBlob.Write: requires distinct ids and non-empty data for a blob with blocks; `BlobLimits.SharedIdOverwritten` says what a shared id does.
- BlockBlob.BlockBlob.WriteFromBuffer: one upload in one step; splitting a large buffer into blocks inside the client library is not modelled.
- BlockBlob.BlockBlob.TruncateFile: the old size passed in is the blob's size or -1. The block list has at most the service's limit of blocks and the configured block size is 0 or between 1 MiB and the largest block the service stages.
- BlockBlob.BlockBlob.StageAndCommit: clearing the marks on the list, which is dropped afterwards, is not modelled.
- BlockBlob.BlockBlob.CreateNewBlocks: the floating-point rounding up of quotients is integer rounding up, here and in CalculateBlockSize. With no block left to use and no block size configured an infinite quotient is converted to an integer, whose value depends on the platform; nothing is claimed for that outcome (`Unspecified`). Truncation divides integers there and stops with a division by zero.
- ReadHandle.Handle.GetBlock: the commit of uncommitted blocks and the null-block path do not arise on a read-only handle whose blob does not change, and are not modelled; flags only the write path reads are omitted.
- AttrCache.CacheTreeMap.MoveCachedItem: requires that neither path lies inside the other and that the cache has room. With the destination above the source the result is different: moving a/b to a, a child a/b/b lands on a/b, so something reachable from the source path exists again (`AttrMove.LandsOnSource`). A refused insertion makes the program dereference a nil pointer.
- AttrCache.CacheTreeMap.UpdateAncestorsInCloud: exactness is stated where the ancestors exist as directories; missing ones are created, and then only the tree invariant is stated.
- AttrCache.CacheTreeMap.RemoveExpired: the clock stands still during the second pass. `CleanupExpiredEntries` joins the passes with no other operation in between; the locks are released there, and for any cache in between `RemoveExpired` is what holds.
- AttrOrder.SortKeys: stands for the sort of the library.
- AttrCache.CacheTreeMap.InsertItem: listing caches, listing-complete marks and the time updates of parent directories are not modelled; a node's name is the last name of its path.
- BlockPool.BlockPool.NewBlockPool: memory mapping and its failure, termination and the usage figure are left out; a timed wait fails only if both channels stay empty.
- LruCache.LRUCache.Put: for keys that are not cached and positive capacity; putting a cached key again duplicates its list node, and evicting from an empty list dereferences a nil pointer. `Run` looks a key up before it puts it.
- Disk cache, checksums, entity tags, retry counts and timeouts: a transfer simply ends well or badly.
- The tree of directories in storage, listing, links, renames and permissions in azstorage: calls to the service.
- Locks: operations on one handle, and on the attribute cache, exclude each other.
- Integer widths: sizes, offsets and counters are unbounded.
- File-level operations of the attribute cache that combine the modelled ones with a call to the next component, and the agreement of the cache with the cloud.
