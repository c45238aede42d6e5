# A model of the QEMU core in this tree

Four components are modelled, each with the properties that its comments and callers rely on:

- **Exclusive sections and CPU work** (`cpu-common.c`): a state machine with one step per access to `pending_cpus`, `running` and `has_waiter`. Stores go through per-variable store buffers that drain at any time (a weaker memory than x86), and `smp_mb()` waits until the thread's own buffers are empty. Condition waits may wake spuriously. The per-CPU work queue runs on top of it as a composed state machine. Files `Exclusive.dfy`, `ExclusiveProgress.dfy`, `ExclusiveNested.dfy`, `ExclusiveFences.dfy`, `WorkQueue.dfy`.
- **Image copying** (`qemu-img.c`): `compare`, `rebase` and `convert`. Images are sequences of bytes or sectors. Block status, allocation and I/O are oracles that answer truthfully, make progress and may fail. The coroutines of `convert` are a state machine over every interleaving at yield points; its steps allow exactly what the contracts of the sequential methods in `Convert.dfy` promise. Files `Images.dfy`, `Buffers.dfy`, `Compare.dfy`, `Rebase.dfy`, `Sparse.dfy`, `Convert.dfy`, `ConvertRun.dfy`.
- **The block graph** (`block.c`): edges are a map from edge identifiers to `BdrvChild` records. A node's children are the edges that belong to it and its parents the edges that lead to it; loops over them visit them in any order. `Layer` is the graph together with the open transaction, which aborts and commits newest first as `util/transactions.c` does. Files `Dag.dfy`, `BlockGraph.dfy`, `TopoSort.dfy`, `Perms.dfy`, `Refresh.dfy`, `GraphTran.dfy`, `BlockLayer.dfy`, `GraphSearch.dfy`, `GraphOps.dfy`, `AioContext.dfy`.
- **Jobs and job groups** (`job.c`, `blockjob.c`): a state machine in which one step is what is done between taking and releasing the job lock; where a resume or a cancel gives the lock up for the driver's user_resume callback, it is two steps, and other threads may step in between. An assertion of the source that does not hold sets a `failed` flag, and that flag is proved never to be set. `JobTxn.dfy` holds the loops over a group as methods and proves that they do what the state machine's steps say. Files `JobState.dfy`, `JobRun.dfy`, `JobOutcome.dfy`, `JobWindow.dfy`, `JobPrepare.dfy`, `JobDrain.dfy`, `JobDriver.dfy`, `JobRuns.dfy`, `JobEffects.dfy`, `JobFinish.dfy`, `JobTxn.dfy`.

Conventions: `Run` predicates describe whole runs as sequences of states, and `Inv` (or `GroupInv`, `QueueInv`) is the invariant that every step keeps. Methods whose bodies stand for a device (`ReadPart`, `ReadBacking`, `IsAllocated`, `IsAllocatedAbove`, `Pwrite`) are used through their contracts only, which allow failure; a ghost flag `failed` of the object records that one of them did fail, and the operations above them are proved to fail exactly then.

Where a property does not hold of the code, the code is kept and the exact condition is proved:

- `cpu_exec_start` inside the caller's own exclusive section never returns, whatever the other threads do (`ExclusiveProgress.NestedExecStays`, with a run in `ExclusiveNested.NestedExecSticks`); from then on no CPU executes, nobody else gets a section, and whoever sleeps stays asleep (`ExclusiveProgress.NestedStopsAll`). While no thread has done this, nobody is stuck (`ExclusiveProgress.NobodyStuck`).
- `rebase` reaches the end of every overlay exactly if the overlay's blocks, or the overlay itself, are no larger than the copy buffer; with larger ones it comes to a standstill on every overlay in which nothing is allocated and nothing differs (`Rebase.RebaseRounds`). Whatever the blocks, the image reads as before at any time.
- Dropping a user of a node can make the permission update fail, but only by the alignment check or a driver (`Refresh.RemovalFailsOnlyBy`, `Refresh.RemovalCanFail`), although a comment in `block.c` calls it loosening.
- If the prepare callback of a job fails, the job that drives finalisation commits all the same, exactly if the failing callback was not its own and it is not cancelled by force before it is finalised; all others abort (`JobPrepare.FailedPrepareOutcome`, with a run in `JobDriver.DriverCommits`).
- An I/O error of a job while the driver's user_resume callback of a resume or a cancel runs without the lock leaves iostatus failed on a job that is no longer paused. A run has no such error exactly if no error falls into a window (`JobWindow.ErrorsKeptIff`, `JobWindow.WindowOutcome`), and a caller can tell before the call: while nobody enters the job it is possible exactly if the coroutine is in the driver's code or on its way there past the pause (`JobWindow.LosesIffExposed`), and if others may enter the job, exactly if the coroutine is alive (`JobWindow.LosesIffAlive`). `JobRuns.ResumeLoses` and `JobRuns.CancelLoses` are runs in which it happens.
- A cancel trips an assertion exactly for a job that was never started and has been cancelled before (`JobOutcome.CancelAssertsIff`, with a run in `JobRuns.SecondCancelAsserts`).
- A drained section keeps an idle job out of its driver's code exactly if nobody enters or cancels it while it sleeps in its pause point and nobody cancels it by force, itself or by an abort of its group (`JobDrain.SilentIff`, with runs in `JobRuns.CancelBreaksDrain` and `JobRuns.ForceBreaksDrain`).

## Model

| member | source | states |
|---|---|---|
| Exclusive.StepKeepsInv | cpu-common.c:183-325 | Every step of every thread keeps the invariant: lock ownership, one owner at most, the account of pending_cpus, and that executing CPUs are counted or not yet scanned |
| Exclusive.RunInv | cpu-common.c:183-325 | The invariant holds in every state of every run with any number of CPUs |
| Exclusive.MutualExclusion | cpu-common.c:192-325 | While a thread is in its exclusive section no CPU executes guest code and no other thread is in a section |
| Exclusive.PendingCount | cpu-common.c:192-247 | From the end of the scan to end_exclusive, pending_cpus is 1 plus the CPUs with has_waiter, and one more only between the two writes of cpu_exec_end |
| ExclusiveProgress.StepKeepsLive | cpu-common.c:183-325 | Every step keeps what waiting relies on: a nonzero counter has an owner, and the condition of each sleeper is still to be established or its wake is on the way |
| ExclusiveProgress.NobodyStuck | cpu-common.c:183-247 | While no thread has called cpu_exec_start in its own section, whoever sleeps without having been woken is waited on by a thread that is awake, or by an owner whose wake was issued |
| ExclusiveProgress.AwakeMoves | cpu-common.c:183-325 | A thread that is awake and need not wait for the lock has a next step; the owner of a section can end it |
| ExclusiveProgress.NoDeadlock | cpu-common.c:183-325 | For every thread that is awake, it or the holder of the lock can take a step |
| ExclusiveProgress.SectionsNest | cpu-common.c:192-247 | Sections nest: n more calls of start_exclusive are undone by n calls of end_exclusive, with the thread in its section all the time, and at depth 1 the next end_exclusive leaves it |
| ExclusiveProgress.NestedExecStays | cpu-common.c:183-190 | Over whole runs, a thread that calls cpu_exec_start in its own section never executes and never gets out again |
| ExclusiveProgress.NestedStopsAll | cpu-common.c:183-285 | Over whole runs, after such a call no CPU executes, nobody else gets a section, and whoever slept stays in exclusive_idle |
| ExclusiveNested.NestedExecSticks | cpu-common.c:183-285 | A run from the start in which a thread sleeps in exclusive_idle for the end of its own section |
| ExclusiveFences.FencesNeeded | cpu-common.c:208-221 | Without the barriers there is a run in which a CPU executes during an exclusive section |
| WorkQueue.NextKeeps | cpu-common.c:133-179 | Every step of producers, consumers and the exclusive protocol keeps the invariant of the queues |
| WorkQueue.RunsInOrderOnce | cpu-common.c:352-389 | The items of a CPU run in insertion order and at most once; pushed items have run, are running or are queued |
| WorkQueue.ExclusiveItemRunsAlone | cpu-common.c:365-379 | An exclusive item runs only in an exclusive section of its CPU, with no CPU executing and nobody else in a section |
| WorkQueue.SyncReturnAfterRun | cpu-common.c:144-167 | A synchronous caller returns only after its function was run, from the queue or, on its own CPU, on the spot |
| WorkQueue.ConsumerTouchesLive | cpu-common.c:380-386 | The consumer never touches an item that it has marked done or freed |
| WorkQueue.RanItemsAreReleased | cpu-common.c:380-386 | An item that the worker has run and turned away from has been freed, or its synchronous caller has been told and can return |
| WorkQueue.ItemLife | cpu-common.c:144-167 | Over every step: an item is done only by its worker at its end, lives until the worker frees it or its caller has seen that it is done, and keeps its kind |
| WorkQueue.PushQueues | cpu-common.c:133-142 | In every state of every run anybody can queue work of any kind; it goes to the end of the queue, live and not done |
| WorkQueue.SafeWorkRunsAlone | cpu-common.c:327-339 | Over whole runs, work queued as exclusive is never run outside a section, and in it no CPU executes and nobody else is in a section |
| WorkQueue.ReturnsWhenEmpty | cpu-common.c:361-389 | Processing work ends exactly when an item has been finished and no other is queued |
| WorkQueue.WorkDrops | cpu-common.c:361-386 | Every step of a worker brings it closer to the end of its queue |
| WorkQueue.WorkerCanMove | cpu-common.c:352-389 | In every state of every run a worker with work left can go on, unless its thread is in start_exclusive or end_exclusive, or elsewhere |
| Buffers.FindNonzero | qemu-img.c:1133-1147 | -1 exactly if all bytes are zero, otherwise the start of the first 512-byte piece that is not |
| Buffers.CompareBuffers | qemu-img.c:1264-1289 | The longest run of chunks that all differ or are all equal, with the verdict for the first |
| Compare.CheckEmpty | qemu-img.c:1308-1329 | 0 exactly for a zero range, 1 for others, 4 only if this very read fails |
| Compare.CompareChunk | qemu-img.c:1530-1585 | Both shortcut paths decide a chunk correctly; the chunk is as long as both replies allow, limited by the buffer only where something is read |
| Compare.CompareData | qemu-img.c:1547-1570 | Two ranges with data are compared byte by byte |
| Compare.CompareTail | qemu-img.c:1602-1623 | The part behind the shorter image is accepted exactly if it is zero; only what may hold data is read |
| Compare.TailDecides | qemu-img.c:1589-1627 | Images that agree up to the end of the shorter one are equal exactly if the rest of the longer one is zero |
| Compare.CompareCommon | qemu-img.c:1507-1587 | The common part is accepted only if it is equal, over every chunking, and in strict mode only if the flags agree wherever the loop asks for them |
| Compare.Compare | qemu-img.c:1501-1627 | Without I/O errors the result is 0 exactly if the images are equal after extending the shorter with zeros, and in strict mode exactly if they are equal and the flags agree at every place that the comparison comes to; errors are reported only for calls that the comparison makes and that fail |
| Rebase.RewriteKeepsView | qemu-img.c:3969-3974 | Writing what is visible anyway changes nothing that is visible, whatever copy-on-write fills in around it, also if the write fails half-way |
| Rebase.WriteKeepsUniform | qemu-img.c:4073-4086 | A write leaves every block of the overlay allocated as a whole or not at all |
| Rebase.CopyChunks | qemu-img.c:4119-4146 | A round of the inner loop writes only data that is visible already, only into blocks in which the backing files differ, and leaves the range reading the same through both; it fails exactly if a write does |
| Rebase.CopyRegion | qemu-img.c:4088-4146 | An unallocated region is made to read the same through both backing files; no write on the way changes the view, only blocks that differ are allocated, and it fails exactly if a device does |
| Rebase.StretchAdvances | qemu-img.c:4073-4084 | The region starts at its block and ends with a block, the image or the buffer; although the offset moves back, a round ends behind where it began exactly if the block reaches back by less than the buffer size |
| Rebase.LargeBlocksDoNotAdvance | qemu-img.c:4081-4084 | With blocks and an image larger than the buffer a round that starts at the end of the first buffer ends where it began |
| Rebase.StretchUnallocated | qemu-img.c:4073-4086 | The region stretched to whole blocks is still unallocated |
| Rebase.QueryRange | qemu-img.c:4026-4071 | A range is skipped exactly if it is allocated, or if no layer between two backing files of one chain holds it; what is left to copy is unallocated, as long as the answers say |
| Rebase.RebaseRound | qemu-img.c:4026-4148 | For blocks of any size a round keeps the view through the old backing file, allocates only blocks that differ and extends the range that reads the same through both; says exactly where it ends in terms of the answers to its queries, when it does not advance, and that it fails exactly if a device does |
| Rebase.RebaseRounds | qemu-img.c:4026-4148 | For blocks of any size any number of rounds keeps the view and allocates only blocks that differ; with small blocks or a small image the end is reached within as many rounds as there are bytes, and otherwise, where there is nothing to copy, the offset never passes the first buffer |
| Rebase.SafeRebase | qemu-img.c:3976-4161 | At any time, and after an error, the image reads as before through the old backing file; on success also through the new one, for backing files of any length; it succeeds exactly if no device fails, and allocates only blocks in which the backing files differ |
| Sparse.IsAllocatedSectors | qemu-img.c:1159-1210 | The answer is the one that the meaning below determines |
| Sparse.LeadingAreaSound | qemu-img.c:1159-1210 | An area reported as unused is zero, every answer makes progress, and an area ends at an aligned sector of the image or with the buffer |
| Sparse.LeadingAreaIs | qemu-img.c:1159-1210 | An area is unused exactly if the buffer is zero up to an aligned sector or to its end, and then goes to the last such sector; a used area ends at the first aligned sector at which the leading run is over |
| Sparse.AreaUnique | qemu-img.c:1159-1210 | Only one answer has this meaning |
| Sparse.IsAllocatedSectorsMin | qemu-img.c:1217-1254 | Unused areas are as above; a used area takes along exactly the used areas that follow and the unused ones of less than the minimum between them, and ends before a long enough zero area or the end of the data |
| Convert.FlatSlice | qemu-img.c:1700-1710 | A source is the slice of the concatenation that starts after the sources before it |
| Convert.SelectPart | qemu-img.c:1700-1710 | The source found is the only one that holds the sector |
| Convert.ConvertState.Query | qemu-img.c:1734-1797 | Fails exactly if the source's answer does, and else learns what QueryLearns says: the cached status covers the sector and says zero only for sectors that are zero |
| Convert.QueryLearns | qemu-img.c:1734-1797 | The kind is zero exactly if the source's answer says so, and the status is known up to the end of the answer, cut to the alignment of the source if anything is left then |
| Convert.ConvertState.IterationSectors | qemu-img.c:1712-1817 | Gives the request that RequestExact determines, or fails exactly if the status is not known and the query fails |
| Convert.RequestExact | qemu-img.c:1712-1817 | A request is the longest that the known status, the sources and the buffer allow; for a compressed target it is cut to whole clusters, or is one cluster, or the rest of the sources, as data |
| Convert.RequestFailsIff | qemu-img.c:1731-1797 | There is no request exactly if the status is not known and cannot be learnt |
| Convert.NextRequestOk | qemu-img.c:1712-1817 | A request is not empty, fits the sources and the buffer, is of kind zero only if its sectors are zero, and for compressed targets is made of whole clusters or reaches the end |
| Convert.ConvertState.CoRead | qemu-img.c:1819-1870 | The buffer holds the concatenated sources, also across the end of a source; fails exactly if a read does |
| Convert.ConvertState.WriteChunk | qemu-img.c:1873-1935 | Deals with exactly as many sectors as the scan for zeroes says; the chunk is written, unless it holds no data and the target was zero from the start, and then nothing is; fails exactly if the write does |
| Convert.ConvertState.Scan | qemu-img.c:1896-1904 | Says exactly when there is data that has to be written, and how far |
| ConvertRun.StepKeepsInv | qemu-img.c:1968-2089 | Every step of every coroutine, errors included, keeps the invariant: disjoint ranges, what the target holds, the counters, ordered writes and waiters |
| ConvertRun.RunInv | qemu-img.c:1968-2089 | The invariant holds in every state of every run with any number of coroutines |
| ConvertRun.ConvertCopies | qemu-img.c:1968-2152 | When all coroutines have left, an error was recorded, or the target is the concatenated sources and the requests were a partition of the input |
| ConvertRun.OrderedWritesGrowAPrefix | qemu-img.c:2036-2079 | With ordered writes and no error the target is at every moment a prefix of the copy followed by its old content |
| ConvertRun.OrderedRequestsTile | qemu-img.c:2011-2079 | With ordered writes and no error the requests in flight tile the sectors from wr_offs to sector_num, only the first is written, and each waiter has an unfinished predecessor or its turn |
| ConvertRun.Predecessor | qemu-img.c:2036-2043 | A request that is not the first in flight has an unfinished predecessor in flight |
| ConvertRun.NoDeadlock | qemu-img.c:1986-2088 | Until all coroutines have left, also after an error, one of them can take a step at which nothing fails, unless it is the status query that the next request needs |
| ConvertRun.WriteAnyChunk | qemu-img.c:1873-1935 | Whatever chunk of its data a writing coroutine chooses, it can be written |
| ConvertRun.StepDrops | qemu-img.c:1986-2088 | Every step brings the conversion closer to its end |
| ConvertRun.RunEnds | qemu-img.c:1986-2088 | The length of a run is bounded by the work there is to do |
| ConvertRun.RequestsFixed | qemu-img.c:1986-2027 | For any number of coroutines and every interleaving the requests handed out are the first of those that one coroutine alone would hand out, and all of them in the end |
| ConvertRun.HandedOut | qemu-img.c:1997-2011 | A request is handed out whole, except that zeroes which are to be written out are cut to the buffer |
| ConvertRun.BuffersFit | qemu-img.c:1983-2027 | In every state of every run a request that needs the buffer fits it |
| ConvertRun.CanComplete | qemu-img.c:1968-2152 | From every state of every run in which nothing has failed, if no status query fails, the conversion can be completed with result 0, and then the target is the concatenated sources |
| ConvertRun.CompletesIff | qemu-img.c:1968-2152 | From every state of every run in which nothing has failed the conversion can be completed exactly if none of the status queries that it makes fails |
| Dag.RedirectReaches | block.c:5254-5286 | After leading edges from outside a subtree to its root, only nodes of this subtree are newly reached |
| Dag.RedirectKeepsAcyclic | block.c:5254-5286 | Edges led to a node from outside its subtree close no cycle |
| Dag.RedirectKeepsSubtree | block.c:5254-5286 | They leave that subtree as it is |
| TopoSort.TopologicalDfs | block.c:2301-2335 | From a sorted closed list the list becomes a sorted closed list of exactly the old nodes and the subtree, each once, parents first, for every order of children |
| TopoSort.SortSubtrees | block.c:2624-2644 | The same from any sorted closed list and any list of roots, repetitions included |
| Perms.DefaultPermsMonotone | block.c:2773-2927 | The default permission functions are monotone: users that ask for less and share more make the node ask for less and share more |
| Perms.FilterPassesOn | block.c:2773-2782 | A filter passes on exactly what its users take and share |
| Perms.CowReadsOnly | block.c:2784-2818 | A backing file is taken for consistent reads exactly if the users need them, and shared for writing and resizing exactly if the users share writing or the node is inactive |
| Perms.StorageTakes | block.c:2820-2904 | Permission by permission, when a file below a format is taken with it |
| Perms.StorageShares | block.c:2820-2904 | Permission by permission, when such a file is shared for it |
| Perms.DefaultPermsProtect | block.c:2784-2903 | A backing file is never written through its overlay, metadata files are not shared for writing or resizing, and writing a data file comes with resizing |
| Refresh.AssignConsistent | block.c:2521-2622 | After visiting a sorted list every listed node's edges carry what the final permissions on the node call for |
| Refresh.ChecksPassIff | block.c:2600-2622 | The checks on the way succeed exactly if all checks hold in the final assignment |
| Refresh.UniqueAssignment | block.c:2521-2622 | There is only one consistent assignment that agrees on all edges that are not refreshed |
| Refresh.OrderDoesNotMatter | block.c:2592-2644 | Outcome and result are the same for every sorted order |
| Refresh.RefreshRestores | block.c:2514-2622 | After a successful refresh of whole subtrees the entire graph is consistent |
| Refresh.ConsistentUnique | block.c:2514-2622 | A refresh has at most one possible result |
| Refresh.ResultOfList | block.c:2592-2622 | A refresh succeeds exactly if a consistent assignment exists, and installs it |
| Refresh.NodeMeans | block.c:2521-2591 | What the checks and the settings at one node mean, edge by edge: no user takes what another does not share, writers need a writable node and the right to resize or an aligned size, the driver agrees, and each child edge carries the driver's answer, with everything shared under force_share |
| Refresh.ConsistentMeans | block.c:2257-2622 | An assignment is a result of a refresh exactly if this holds at every node below the roots and all other edges are as before |
| Refresh.DefaultEnvMonotone | block.c:2773-2927 | With the default functions every node passes looser permissions on as looser ones |
| Refresh.RemovalLoosens | block.c:3332-3349 | Taking a parent away and refreshing loosens every edge |
| Refresh.RemovalFailsOnlyBy | block.c:3342-3349 | After that the refresh fails exactly if the alignment check or a driver objects; the conflict and read-only checks cannot fail |
| Refresh.RemovalCanFail | block.c:2547-2561 | Without the user that holds RESIZE a writer fails the alignment check |
| GraphTran.UndoAllSame | util/transactions.c:60-79 | Aborting depends only on edges, inherits_from and effective counts |
| GraphTran.ApplyRollback | block.c:2337-2374 | Every kind of change keeps the way back open, with each abort handler finding its edge |
| GraphTran.ApplyAccounted | block.c:2431-2512 | Every kind of change keeps each reference owned by an edge, the transaction or someone outside |
| GraphTran.AbortRestores | block.c:2431-2473 | For every sequence of changes aborting restores edges, permissions, inherits_from and, after scheduled unrefs, the counts, and never meets a freed edge |
| GraphTran.CommitAccounts | block.c:5326-5356 | Committing frees only removed edges and leaves counts equal to the remaining owners |
| GraphTran.CommitLeavesOwners | util/transactions.c:81-100 | The same for every sequence of changes |
| BlockLayer.Layer.GetCumulativePerm | block.c:2646-2662 | The union of what all users take and the intersection of what they share |
| BlockLayer.Layer.ParentPermsConflict | block.c:2257-2281 | True exactly if two users of the node do not get along |
| BlockLayer.Layer.ChildSetPerm | block.c:2358-2374 | Sets one edge and keeps the transaction reversible |
| BlockLayer.Layer.DrvSetPerm | block.c:2408-2429 | Fails exactly if the driver objects |
| BlockLayer.Layer.NodeRefreshPerm | block.c:2521-2591 | Fails exactly if the read-only, alignment or driver check does; otherwise sets all child edges, or none without a driver |
| BlockLayer.Layer.SetChildPerms | block.c:2580-2588 | Every child edge takes what the driver answers and shares what it answers, or everything if the child has force_share; no other edge changes |
| BlockLayer.Layer.DoRefreshPerms | block.c:2600-2622 | Succeeds exactly if the checks pass, and then has made the assignment |
| BlockLayer.Layer.RefreshPerms | block.c:2699-2718 | For the subtree of a node: succeeds exactly if a consistent assignment exists, and installs it; then every edge below carries what its parent's driver asks for, with force_share obeyed |
| BlockLayer.Layer.ListRefreshPerms | block.c:2632-2644 | The same for the subtrees of any list of nodes |
| BlockLayer.Layer.UndoLast | block.c:2343-2351 | The abort handler of the newest action takes back its change |
| BlockLayer.Layer.TranAbort | util/transactions.c:60-79 | Leads back to the state in which the transaction began |
| BlockLayer.Layer.TranCommit | util/transactions.c:81-100 | Frees the removed edges and leaves every reference owned |
| BlockLayer.Layer.ReplaceChildTran | block.c:2491-2512 | Redirects one edge, takes a reference, and keeps the transaction reversible |
| BlockLayer.Layer.RemoveChild | block.c:5344-5356 | Empties an edge that a commit will free |
| BlockLayer.Layer.SetInheritsFrom | block.c:3376-3393 | Sets inherits_from reversibly |
| BlockLayer.Layer.InsertEdge | block.c:3165-3196 | Inserts a new edge with a reference, reversibly |
| GraphSearch.RecurseHasChild | block.c:4346-4362 | True exactly if the node lies in the subtree; ends because the graph has no cycle |
| GraphSearch.VisitNode | block.c:5301-5318 | One node of the search, which stops at the edge in question |
| GraphSearch.ShouldUpdateChild | block.c:5247-5324 | True exactly if the edge is not bound to its node and does not belong to the subtree of the target |
| GraphOps.NewEdgeAsked | block.c:3210-3241 | A new edge carries what the parent's driver asks for under the permissions on the parent, and shares everything if the child has force_share |
| GraphOps.RefusedIff | block.c:3224-3233 | An attachment is refused exactly if the parent lies below the child, or the child is inactive and the parent is not or its driver asks for more than consistent reads |
| GraphOps.AttachChildNoperm | block.c:3210-3241 | Fails exactly if refused; otherwise adds one edge, which carries what the driver asks for, and no cycle |
| GraphOps.RedirectableSame | block.c:5378-5394 | The search of every round sees the same subtree as that of the first |
| GraphOps.ReplaceNodeNoperm | block.c:5365-5397 | Leads exactly the edges outside the target's subtree that are not bound, and fails exactly for a frozen one, or an unmovable one without auto_skip |
| GraphOps.TranFinalize | block.c:5444-5447 | Ends the transaction with all changes or none |
| GraphOps.AttachChild | block.c:3294-3325 | Succeeds exactly if not refused and consistent permissions exist; otherwise everything is as before; the graph changes by one edit of the kinds below |
| GraphOps.ReplaceNode | block.c:5409-5447 | The same for replacing a node, with the redirected graph and its consistent permissions |
| GraphOps.Append | block.c:5487-5523 | The same for putting a node on top of another |
| GraphOps.AppendPutsOnTop | block.c:5474-5514 | After an append the new node stands on the old one, its backing edge is kept, all movable users use the new node, and no other edge has moved |
| GraphOps.RootUnrefChild | block.c:3332-3357 | The edge and its reference are gone; permissions are the consistent ones, or unchanged if there are none; the graph changes by one edit of the kinds below |
| GraphOps.DropPermitted | block.c:3342-3349 | Consistent permissions exist after dropping a user exactly if the alignment check and the drivers agree |
| GraphOps.ChildTrySetPerm | block.c:2720-2752 | Failure changes nothing and is reported only to a caller that asked for more than it had |
| GraphOps.EditKeepsAcyclic | block.c:3224-3228 | The edits that attach, replace, append and drop are proved to make keep the graph free of cycles |
| GraphOps.RunsStayAcyclic | block.c:5365-5397 | So does every sequence of them |
| AioContext.Walk.ChangeNode | block.c:7659-7694 | Visits all edges of a node and of what is connected with it, and fails only if a user in the component refuses |
| AioContext.Walk.ParentChange | block.c:7575-7601 | The same through a parent edge of a node, a job or a user |
| AioContext.Walk.ChildChange | block.c:7614-7624 | The same through a child edge |
| AioContext.Walk.JobChange | blockjob.c:147-171 | A job moves with all its nodes |
| AioContext.WalkIsComponent | block.c:7659-7694 | What a successful walk has collected is exactly the connected component, and nobody in it refuses |
| AioContext.MoveKeepsEqual | block.c:7633-7641 | Moving a component keeps both ends of every edge in one context |
| AioContext.AioLayer.CommitMoves | block.c:7633-7641 | The linear phase moves exactly the collected nodes, jobs and users |
| AioContext.AioLayer.TryChange | block.c:7708-7745 | Moves exactly the connected component, or nothing, and fails exactly if a user in it refuses |
| JobState.AllowedInto | job.c:59-72 | From which statuses a job can come into each status |
| JobState.VerbsByStatus | job.c:74-84 | What users can do to a job in each status |
| JobRun.LocalKeeps | job.c:538-801 | Start, enter, timer, yield, pause, drain, ready, finish, error, dismiss and unref keep a job's invariant and cancel flags |
| JobRun.CancelKeeps | job.c:899-924 | The part of a cancel after the callback ends a user's pause, never clears a forced cancel and touches nothing but the pauses and the cancel flags; JobWindow.StepForce says when it sets them |
| JobRun.ThreadKeeps | job.c:719-741 | Steps that may come while the main thread is in a callback do not take a job out of its group or end a user's pause |
| JobRun.SweepKeeps | job.c:943-957 | Cancelling one more member keeps the invariant of a group that is being aborted |
| JobRun.UpdateRcKeeps | job.c:804-815 | The result becomes an error exactly for an error or a forced cancel, and then the job is aborting |
| JobRun.FinalizeKeeps | job.c:846-883 | A completed member gets commit or abort, then clean, and leaves its group |
| JobRun.ExitKeeps | job.c:1081-1096 | A job that returns with an error or was force-cancelled is aborting, otherwise waiting |
| JobRun.WaitedForAreCancelled | job.c:958-965 | Members that an abort still waits for have been cancelled |
| JobRun.StepKeeps | job.c:538-1163 | Every step keeps the invariant of the group, with the lock given up in the middle of resumes, cancels and aborts |
| JobOutcome.LifecycleSafe | job.c:59-84 | In every reachable state no assertion has failed: status changes are allowed, jobs are freed only in NULL and outside a group, and the coroutine is woken only while it is yielding |
| JobOutcome.PausesConserved | job.c:690-758 | pause_count is 1 if not started, plus 1 if paused by a user or for an error, plus the open drained sections; no resume is lost; a pause that is being ended counts until the callback has returned |
| JobOutcome.CancelAssertsIff | job.c:1137-1163 | A cancel of a member trips an assertion exactly if the job never started and has been cancelled before |
| JobOutcome.CompletedIsFinal | job.c:306-326 | A completed job stays completed |
| JobOutcome.CauseIsFinal | job.c:929-942 | Once a group is being aborted the reason stays the same |
| JobOutcome.GroupOutcome | job.c:929-1007 | Each member is finalised at most once with commit or abort and then clean: commit without a failure, abort after an error or cancel, and after a failed prepare abort for all but the driving job, which commits exactly if the failure was not its own and it is not cancelled by force |
| JobOutcome.OnlyEarlyFailuresSkip | job.c:787-792 | A member that left without being finalised had not started |
| JobOutcome.ErrorAbortsAll | job.c:1064-1075 | A member that completes with an error makes every finalised member abort |
| JobOutcome.AllWellCommits | job.c:1037-1061 | Without errors, failed prepares and cancels every member that has left was committed, or failed before it started |
| JobWindow.StepIo | job.c:690-924 | Steps of other jobs leave a job's pauses alone; its own change them exactly so: errors are recorded as the driver reports them and forgotten as a window opens, users' pauses are taken unless the job has completed and end as a window closes, and drained sections and job_start count |
| JobWindow.StepForce | job.c:888-957 | A job is cancelled for good exactly by a forced cancel of itself or by an abort of its group; it counts as cancelled exactly by these and by a cancel before it has returned to the main loop; no step takes a cancel back |
| JobWindow.ErrorsKeptIff | blockjob.c:576-620 | Over whole runs that end with no callback running, a failed iostatus always goes with a user's pause exactly if the job never stops for an error in a window |
| JobWindow.WindowOutcome | job.c:744-758 | After a resume or a cancel that ends a user's pause, iostatus is failed without a pause exactly if the job stopped for an error in between |
| JobWindow.LosesIffExposed | job.c:899-910 | Before the call: as long as nobody enters the job, a resume or cancel can lose an error exactly if the coroutine is in the driver's code or on its way there past the pause |
| JobWindow.LosesIffAlive | job.c:899-910 | If others may enter the job in the window, a resume or cancel can lose an error exactly if the coroutine has been created and has not returned |
| JobPrepare.PrepareCause | job.c:996-1061 | A group begins to be aborted for a failed prepare in exactly the steps that get as far as the prepare callbacks, on request or with the last member to complete well, and see one fail |
| JobPrepare.ForceOrigin | job.c:888-957 | Over whole runs, a job is cancelled for good exactly if a step in between forced it or it was before |
| JobPrepare.AskOrigin | job.c:888-957 | Over whole runs, a job counts as cancelled exactly if it did before or one of these steps came in between |
| JobPrepare.FailedPrepareOutcome | job.c:929-1007 | From the step at which a prepare callback fails: every member finalised later aborts, except that the driving job commits exactly if the failing callback was not its own and no forced cancel of it comes in between |
| JobDrain.IdleIsSilent | blockjob.c:99-112 | A job that is not busy, or has completed, gets into no driver code before it stops at a pause point, exactly if it is not cancelled by force or has completed |
| JobDrain.DrainedStep | blockjob.c:105-107 | In a drained section a step that touches only the job breaks this exactly if it is an explicit enter of a paused job |
| JobDrain.CancelSilence | job.c:1137-1163 | A cancel breaks the silence of a drained job that runs exactly if it is forced or the job is paused, and then the coroutine is on its way into the driver |
| JobDrain.SilentStep | blockjob.c:93-127 | In a drained section a step of any job breaks the silence exactly if it enters or cancels the job itself in its pause point, or cancels it by force |
| JobDrain.DrainedStaysSilent | blockjob.c:93-127 | Over whole runs, a job that is idle when it is drained runs no driver code until the section ends, unless it is roused in this way |
| JobDrain.SilentIff | blockjob.c:93-127 | It is silent all along exactly if it is not roused |
| JobRuns.ResumeLoses | job.c:744-758 | A run in which a resume loses the error that the job stopped for |
| JobRuns.CancelLoses | job.c:899-910 | A run in which a cancel loses the error that the job stopped for |
| JobRuns.CancelBreaksDrain | job.c:1137-1163 | A run in which a cancel lets a job into its driver's code although its drained section is open |
| JobRuns.ForceBreaksDrain | job.c:606-640 | A run in which a forced cancel lets a job that is idle when it is drained into its driver's code |
| JobRuns.SecondCancelAsserts | job.c:1064-1068 | A run to a group that waits for one member while another was cancelled before it started; cancelling that one again trips the assertion |
| JobDriver.DriverCommits | job.c:996-1007 | A run in which one member aborts because its prepare failed and the driving member commits |
| JobEffects.StepEffect | job.c:538-1163 | Exactly what every step does to every job: where its coroutine gets to, whether its timer is pending, its status, its return value, its readiness and its references |
| JobEffects.SleepsUntilWoken | job.c:538-716 | Over whole runs, a coroutine that sleeps goes on sleeping, with its timer, exactly as long as it is not entered, timed out, cancelled, newly paused, or released from its last pause while no timer runs |
| JobEffects.ErrorStays | job.c:1102-1119 | Over whole runs, an error that the run function returns stays the job's return value |
| JobEffects.ErrorReturnAborts | job.c:1064-1119 | Over whole runs, such an error makes every member that is finalised later abort |
| JobFinish.SomeStepCloser | job.c:538-1163 | In every state that fits, a group with members has a step that brings it closer to its end |
| JobFinish.RunCanFinish | job.c:761-1163 | Every run can be continued until all members have been finalised or have left and all jobs have been freed: no group is ever stuck and no job is lost |
| JobTxn.SettleReached | job.c:943-957 | With nothing in between, the steps of an abort lead to the group in which all other members are cancelled |
| JobTxn.Txn.BeginAbort | job.c:929-957 | The loop cancels exactly the other members, once, as those steps do |
| JobTxn.Txn.PrepareMembers | job.c:177-200 | The loop stops at the first member whose callback fails |
| JobTxn.Txn.FinalizeMembers | job.c:177-200 | The loop finalises every member once |
| JobTxn.Txn.Finalize | job.c:996-1007 | All callbacks return 0 and all members are finalised, or the group is aborted |
| JobTxn.Txn.OthersCompleted | job.c:1044-1053 | True exactly if every member has completed |
| JobTxn.Txn.PendMembers | job.c:1020-1027 | Every member becomes pending |
| JobTxn.Txn.NeedsFinalize | job.c:990-993 | True exactly if a member asks for manual finalisation |
| JobTxn.Txn.Succeed | job.c:1037-1061 | Does what the step of the state machine says for a job that completes well |
| JobTxn.Txn.Complete | job.c:1064-1075 | The same for every completed job |
| JobTxn.Txn.Exit | job.c:1081-1096 | job_exit is one step of the state machine, followed by the steps that cancel the others if it aborts the group, and keeps the invariant |

## Left out

- List order: the order of a node's parents and children, and of a group's members, is not modelled; loops visit them in any order, or in any order given by the caller.
- CPU hotplug, breakpoints and the big lock around `do_run_on_cpu`: the set of CPUs is fixed and the wake-up of a sleeping CPU by `qemu_cpu_kick` is not modelled.
- Exclusive.StepKeepsInv: weak memory beyond store buffers (load reordering) is not modelled.
- ExclusiveProgress.NobodyStuck: excludes states in which a thread has called cpu_exec_start in its own section; ExclusiveProgress.NestedStopsAll is about those.
- WorkQueue.WorkerCanMove: that a CPU gets to process_queued_cpu_work at all, which cpu_exit sees to, is not modelled.
- Convert.ConvertState.Query: copy offloading, salvage mode, targets with a backing file and status errors that are retried per sector are not modelled.
- Convert.ConvertState.IterationSectors: the limit that a target's backing file sets (target_backing_sectors) is not modelled.
- Convert.ConvertState.CoRead: the sector-by-sector reads of salvage mode are not modelled.
- Convert.ConvertState.WriteChunk: requests that the target's backing file answers (BLK_BACKING_FILE) are not modelled.
- ConvertRun.CanComplete: the completing run writes each request as one chunk; ConvertRun.WriteAnyChunk shows that any other chunks can be written as well.
- ConvertRun.OrderedWritesGrowAPrefix: after an error only termination is claimed, not what the target holds.
- Status and I/O oracles answer in whole sectors for `convert` and in bytes for `compare` and `rebase`.
- Rebase.SafeRebase: asks for blocks, or an image, no larger than the copy buffer, because otherwise the loop need not end (Rebase.RebaseRounds covers all sizes); compressed writes and progress reporting are not modelled.
- Refresh.RemovalFailsOnlyBy: the permission functions of drivers are the defaults, or any monotone function of the permissions on the node.
- GraphTran.CommitLeavesOwners: deleting a node whose count reaches zero and draining are not modelled; scheduled unrefs are counted as done.
- GraphOps.AttachChildNoperm: the attempt to move the child to the AioContext of its parent is not modelled here; AioContext.AioLayer.TryChange is about that move.
- GraphOps.AttachChild: for the same reason says nothing about contexts; the reference that the caller hands over is not dropped at the end.
- GraphOps.RootUnrefChild: the move of a node without users back to the main AioContext is not modelled.
- Reopening images, options, file names, limits and the I/O paths of `block.c`.
- AioContext.AioLayer.TryChange: `ignore_child` is always NULL, because it breaks the equal-context invariant on purpose.
- JobRun.StepKeeps: job_start is called on created jobs only, a driver signals ready at most once, its cancel callback keeps force and forces the cancel of a job that has not started, and driver callbacks do not re-enter the group. Cancels from outside the user's command (job_cancel_sync) are steps, except of a job that was never started and has been cancelled, where they trip an assertion (JobOutcome.CancelAssertsIff); the waiting of job_cancel_sync itself is not modelled. The lock is also given up for the driver's cancel, prepare, commit, abort and clean callbacks; they are part of the step that calls them, and steps of other threads come before or after. Every driver is taken to have block_job_user_resume as its user_resume callback.
- JobOutcome.GroupOutcome: claims nothing about whether the wait for a member that was never started ends; JobFinish.RunCanFinish shows that it can, once the member is started.
- JobFinish.RunCanFinish: shows that there is a way on, not that it is taken; where all members wait for one that has failed before it started, the way on is a forced cancel.
- JobWindow.LosesIffExposed: excludes job_enter by other code in the window; JobWindow.LosesIffAlive includes it.
- JobDrain.IdleIsSilent: jobs that are busy when they are drained, and a driver's own drained_poll, are not covered.
- Job progress, events, QMP commands, rate limits and AioContext changes of jobs.
