# cuMatch, modelled and proved

cuMatch counts the matches of a query graph in a data graph that is cut into shards. A query is parsed and turned into
tables; a scheduler orders its vertices and gives every edge a turn; a planner searches for the combinations of shards
that may hold matches; a packer cuts the resulting tree into tasks that fit a device buffer and rebuilds each task's
tree over query vertices; a kernel runs a leap-frog join over that tree in many thread blocks; and a dispatcher
double-buffers the tasks and adds up the counters. This project models that chain, step by step, and proves that the
number that comes out is the number of matches.

The model follows the program's modules:

- the join kernel: `Machine`, `Sequences`, `Shards`, `Intersections`, `SearchTrees`, `Backtracking`, `Launches`,
  `Registers`, `KernelLoads`, `KernelSteps`, `ThreadBlocks`, `KernelGrids`. The basic, the constraint and the negative
  kernel are one machine with a `Variant`: where the three differ, the model branches as they do. A run of a block is
  described beside the machine by a stack of frames (`Backtracking`), whose outstanding work is a sum over the tree;
  every step of the machine keeps counter plus outstanding work, and strictly lowers a second such sum;
- the query, the scheduler and the kernel's tables: `QueryGraphs`, `Schedules`, `SlotTables`, `SlotLayouts`,
  `LaunchTables`, `LaunchMatches`;
- the planner: `Grids`, `PlanTrees` (what the search should find), `Planners` (the search, with its range stacks),
  `PlanCoverage`;
- the plan tree's iterator and the packer: `PlanWalks`, `TaskPackers`, `PlanStreams`, `WalkOrders`, `TaskShapes`,
  `TaskTrees`, `TreeCsrs`, `PlanLevels`;
- launches: `Headers`, `HeaderLayouts`, `TaskLaunches`, `TaskCounts`;
- the composition: `Engines`, `RunMatches`, `RunLists`, `GraphMatches`, `TaskStreams`, `EndToEnd`, `ConstraintScopes`;
- the shard cache: `LinkedLists`, `LruPolicies`, `CachePolicies`, `LruHistories`, `CacheControllers`;
- the dispatcher: `DoubleBuffers`;
- bytes and text: `Bits`, `FlippedArrays`, `BitReaders`, `QueryParsers`.

Two conventions. Large hypotheses travel as records: `Levels`, `Planning`, `Packed`, `Engine`, `Compiled` and `Setting`
each hold their parts and a flag `ok`, and their predicate `Ok()` (or `Good`) says that the flag is set and is the truth
about the parts; nothing is ever concluded from the flag alone. A ghost parameter such as `path`, `trail` or `marks`
names the part of the specification that a method stands at; it does not exist in the program.

## Model

| member | source | states |
|---|---|---|
| EndToEnd.CountMatches | source/cuMatch/device_manager.cu:262-430 | For every valid regular directed query, vertex order, partitioned graph and capacity that every run's shards fit: the task counters add up to the number of matches of the query in the data graph, each counted once, and in the constraint kernel exactly those that also pass every NOT_EQUAL test on local ids; planning ends without a plan only if there is no match. |
| GraphMatches.OneNumber | source/cuMatch/device_manager.cu:421 | The number printed is a property of query and graph: however the matches are listed once each, there are as many. |
| EndToEnd.RunTasks | source/cuMatch/device_manager.cu:322-418 | Launching the popped tasks one by one lists every homomorphism of the plan exactly once, and the counters add up to their number. |
| EndToEnd.RunTask | source/cuMatch/device_manager.cu:304-356 | One task's counter is the number of matches on the runs it was packed from, with the header, the rebuilt tree and the grid of blocks in between. |
| EndToEnd.AnyDispatch | source/cuMatch/device_manager.cu:289-421 | However the workers interleave, a finished double-buffered run of these tasks totals the same sum. |
| KernelGrids.RunGrid | source/cuMatch/LFTJ_kernel_basic.cu:224-495 | For every launch with well-formed tables and tree, the counter added up over all blocks is the sum over the subtasks of the number of their matches: sharing prefixes in the tree, splitting the first list over blocks, chunking and resuming neither lose nor repeat one. |
| KernelGrids.RunBlock | source/cuMatch/LFTJ_kernel_basic.cu:318-494 | One block counts, root by root, the matches beneath its share of the first pivot list. |
| KernelGrids.SharesCover | source/cuMatch/LFTJ_kernel_basic.cu:123-127 | With 3840 or more blocks the blocks' shares of the first pivot list, joined in block order, are that list: every position belongs to exactly one block. |
| KernelGrids.SharesEven | source/cuMatch/LFTJ_kernel_basic.cu:123-127 | No block's share is longer than an equal split of the list into 3840 parts, rounded up. |
| KernelGrids.LaunchCounts | source/cuMatch/LFTJ_kernel_basic.cu:318-328 | What the blocks count beneath the roots adds up to the matches of all subtasks, because the roots tile the subtasks. |
| ThreadBlocks.Iterate | source/cuMatch/LFTJ_kernel_basic.cu:330-491 | Every turn of the kernel's loop keeps the machine described by some stack of frames, keeps counter plus outstanding matches, and lowers the outstanding work; it stops only when nothing is outstanding, with all registers back at rest. |
| ThreadBlocks.RunRoot | source/cuMatch/LFTJ_kernel_basic.cu:319-491 | The loop for one root ends and adds exactly the matches beneath the root. |
| ThreadBlocks.LoadInitial | source/cuMatch/LFTJ_kernel_basic.cu:383-419 | A fresh depth is filled with the first chunk of its candidates, and no outstanding match is lost whichever way the intersection goes. |
| ThreadBlocks.LoadResume | source/cuMatch/LFTJ_kernel_basic.cu:420-442 | A resumed depth is filled with the next chunk of the rest, and outstanding matches stay as they were. |
| ThreadBlocks.NextSubtask | source/cuMatch/LFTJ_kernel_basic.cu:445-458 | When a buffer runs empty the depth moves to its next tree child, cyclically, with the child's first subtask and the buffer's saved size. |
| ThreadBlocks.CountLeaf | source/cuMatch/LFTJ_kernel_basic.cu:344-377 | At the last depth the size of the intersection is exactly what was outstanding at that leaf, and the machine backtracks by one. |
| ThreadBlocks.HandOutOne | source/cuMatch/LFTJ_kernel_basic.cu:445-489 | Handing out one candidate, or moving on when there is none, keeps counter plus outstanding matches; it ends the loop only at depth 0 with nothing left. |
| Backtracking.Load | source/cuMatch/LFTJ_kernel_basic.cu:383-419 | On the stack of frames: splitting a depth's candidates into a chunk and a rest changes no outstanding match and raises no work. |
| Backtracking.Refill | source/cuMatch/LFTJ_kernel_basic.cu:420-442 | On the stack of frames: taking the next chunk changes no outstanding match, and a shorter rest lowers the work. |
| Backtracking.Advance | source/cuMatch/LFTJ_kernel_basic.cu:448-453 | On the stack of frames: going to the next child with an empty buffer changes no outstanding match and costs one unit of work. |
| Intersections.SetIntersectionInitial | source/cuMatch/LFTJ_kernel_basic.cu:7-165 | The first intersection at a depth takes the first shortest pivot list; it counts all values passing every joined list at the last depth, gathers a chunk of them in any order in between, or takes a single list as it stands. |
| Intersections.ScanChunk | source/cuMatch/LFTJ_kernel_basic.cu:131-163 | A chunk holds, each once and in whatever order the atomic counter gave, exactly the values of the next 128 pivot positions that pass; the window then holds exactly the rest. |
| Intersections.SplitWindow | source/cuMatch/LFTJ_kernel_basic.cu:123-127 | The 32-bit window arithmetic leaves exactly the block's share of the list, also for blocks past its end. |
| Intersections.LoadLists | source/cuMatch/LFTJ_kernel_basic.cu:29-48 | After loading, each slot's window holds its shard's rows, or the neighbours of the value bound at the edge's earlier vertex, and the gap is that list's length. |
| Intersections.PickPivot | source/cuMatch/LFTJ_kernel_negative.cu:63-70 | The pivot is the first shortest among the slots that may serve as one. |
| Intersections.Intersects | source/cuMatch/LFTJ_kernel_negative.cu:96-128 | The loop over the other slots says yes exactly if the value is in every regular list and in no negative one, also when a negative list is empty; binary search never meets an empty range. |
| Intersections.Excluded | source/cuMatch/LFTJ_kernel_constraint.cu:188-194 | The comparison loop says yes exactly if the value is one of the values to differ from. |
| Shards.LowerBound | source/cuMatch/kernel_aux_tools.cu:245-265 | On a sorted nonempty slice the binary search finds exactly the keys in it and leaves the boundary between smaller and larger values. |
| Shards.Shard.AdjListVid | include/gstream/grid_format/flip24_shard.h:106-122 | The list looked up for a vertex of the source range lies between that vertex's pointer and its successor's, is the list of its neighbours, and is empty for any other vertex; an empty list's start is positive, so that the last index does not underflow. |
| Shards.Shard.HasEdgeIff | include/gstream/grid_format/flip24_shard.h:106-114 | A vertex has another as neighbour if and only if it is in the source range and the other stands in the column array between its pointer and its successor's. |
| Shards.Shard.ListsTileColumns | include/gstream/grid_format/flip24_shard.h:106-114 | The adjacency lists of the source range, joined in ascending order, are the column array: every column entry belongs to one list. |
| SearchTrees.Search.MatchesAre | source/cuMatch/LFTJ_kernel_basic.cu:330-491 | The matches of a subtask that the tree search enumerates are exactly the assignments whose every value is a candidate after the values before it, each once. |
| SearchTrees.Search.NodeCount | source/cuMatch/LFTJ_kernel_basic.cu:445-473 | The search beneath a tree node, which shares the work of several subtasks, counts what the subtasks would count one by one. |
| LaunchMatches.MatchesAreEmbeddings | source/cuMatch/LFTJ_kernel_negative.cu:375-556 | For all three kernels the matches counted for a subtask are exactly, each once, the assignments with every regular edge in its shard, every negative edge absent, and every NOT_EQUAL pair of local ids different. |
| LaunchTables.JoinSizes | source/cuMatch/LFTJ_kernel_negative.cu:352 | The two subtractions of the negative kernel leave exactly the regular slots as pivots, and no size underflows. |
| LaunchTables.SlotsFit | source/cuMatch/LFTJ_kernel_negative.cu:31-70 | With tables made by the scheduler, every joined slot of a depth reads a list that depends only on values already bound, and is negated exactly if it cannot be a pivot. |
| LaunchTables.SomePivot | source/cuMatch/LFTJ_kernel_negative.cu:64 | Every depth has a regular slot to start from when every vertex has a regular edge. |
| LaunchMatches.ExcludedAre | source/cuMatch/LFTJ_kernel_constraint.cu:171-194 | The values a depth is compared with are exactly those of the earlier vertices it must differ from. |
| QueryGraphs.MakeQueryGraph | source/cuMatch/query_graph.cpp:36-143 | The construction succeeds exactly on the parsed queries that pass all its assertions; every vertex then has the id of its own label; every edge the id of its label, the numbers of its two ends in their order, its kind and its direction; constraints are as written, degrees count incident edges, and optional marks are on exactly the vertices that optional edges add. |
| QueryGraphs.MarkOptional | source/cuMatch/query_graph.cpp:91-107 | The pass over the edges marks exactly the first endpoint of an optional edge with no other kind of edge, else its second, and fails exactly if an optional edge adds no vertex. |
| Schedules.Reorder | source/cuMatch/lgf_scheduler.cpp:45-124 | The new order is the stable partition of the given one into vertices that own edges, the postfix ones, and the optional ones of both kinds; the ranks are its inverse; the turns list every edge once, vertex by vertex, and the edges of one vertex by the given order's entry for their other endpoint. |
| Schedules.SortByOpposite | source/cuMatch/lgf_scheduler.cpp:75-78 | Sorting an adjacency list keeps its entries and orders them by key, whatever is done with equal keys. |
| Schedules.RegularFirst | source/cuMatch/lgf_scheduler.cpp:80-119 | No regular vertex comes after an optional one in the new order. |
| Schedules.OwnerPrecedes | source/cuMatch/lgf_scheduler.cpp:50-124 | After the reordering the owner of every edge still precedes its other endpoint, except that an optional edge with a regular end is owned by the later, optional end. |
| Schedules.TurnsArePermutation | source/cuMatch/lgf_scheduler.cpp:94-116 | The turns are a permutation of the edges. |
| Schedules.LevelsWithTurns | source/cuMatch/lgf_scheduler.cpp:83-107 | Without optional vertices, the levels that own turns are exactly those before the postfix. |
| SlotTables.InitKernelInfo | source/cuMatch/lgf_scheduler.cpp:209-339 | The tables hold, for every edge end, the slot the counters lead to, its list id and kind, the depth of the edge's earlier end, the counts of negative ends per vertex, and the ranks each vertex is compared with. |
| SlotTables.ComparesBackward | source/cuMatch/lgf_scheduler.cpp:316-339 | Every compared rank is already bound when it is read if and only if no NOT_EQUAL constraint names one vertex twice. |
| SlotTables.CountsAreDegree | source/cuMatch/query_graph.cpp:75-76 | At every vertex the regular and the other slots together are as many as the degree counted during construction. |
| SlotLayouts.SlotsArePermutation | source/cuMatch/lgf_scheduler.cpp:243-314 | The slots of the first and the second edge ends together are a permutation of all 2E slots: none is shared and none is free. |
| SlotLayouts.SlotOwner | source/cuMatch/lgf_scheduler.cpp:266-277 | A slot lies in a vertex's prefix-sum segment exactly if that vertex is its edge end. |
| SlotLayouts.EidsArePermutation | source/cuMatch/lgf_scheduler.cpp:279-280 | The list ids are a permutation of 0 to 2E: each edge is listed once at its earlier and once at its later end. |
| SlotLayouts.RegularSlotsFirst | source/cuMatch/lgf_scheduler.cpp:247-277 | Within a segment the regular slots are exactly the first ones. |
| SlotLayouts.SegmentSizes | source/cuMatch/lgf_scheduler.cpp:296-307 | Without optional edges a segment is as long as its regular slots, the negative ones ending at the vertex and the negative ones it owns, and the two counters are the last two sizes. |
| SlotLayouts.IncomingNegativesFirst | source/cuMatch/lgf_scheduler.cpp:266-307 | Of a vertex's negative slots, exactly those whose edge ends there come before those it owns, so that cutting the owned ones off the end leaves the joinable ones. |
| PlanTrees.Planning.OptionsAre | source/cuMatch/lgf_scheduler.cpp:426-437 | The loops over grid rows, columns and shard pairs visit every option of a turn exactly once. |
| PlanTrees.Planning.RunsAre | source/cuMatch/lgf_scheduler.cpp:394-538 | The complete runs of the search are exactly the complete paths on which every choice fits the choices before it. |
| PlanTrees.Planning.RunsOnce | source/cuMatch/lgf_scheduler.cpp:394-538 | No run is found twice. |
| PlanTrees.PlanPaths | source/cuMatch/lgf_scheduler.cpp:460-478 | The root-to-leaf paths of the pruned tree are the shards of the runs, in the order of the search: every kept node leads to a complete path and every complete path is kept. |
| Planners.Planner.Iterate | source/cuMatch/lgf_scheduler.cpp:394-538 | The recursive search builds exactly the specified subtrees below its path, says whether it reached a complete one, and leaves the range stacks as it found them. |
| Planners.Planner.PushRange | source/cuMatch/lgf_scheduler.cpp:548-601 | A pair is taken exactly if its ranges overlap what is left at both endpoints; then both stacks grow by the intersection, otherwise nothing changes. |
| Planners.CheckMeansFits | source/cuMatch/lgf_scheduler.cpp:540-546 | The check on the stacks passes exactly if the path so far leaves both endpoints free for that grid row and column. |
| PlanCoverage.ConsistentIff | source/cuMatch/lgf_scheduler.cpp:540-606 | The planner follows a path if and only if some choice of one grid row and one local id per vertex agrees with every pair on it. |
| PlanCoverage.HomomorphismHasPath | source/cuMatch/lgf_scheduler.cpp:394-538 | Every homomorphism into the data graph lies on a path of the plan: pruning drops no match. |
| PlanCoverage.OnePathOnly | source/cuMatch/lgf_scheduler.cpp:394-538 | It lies on one path only. |
| PlanCoverage.RealizedIsHomomorphism | source/cuMatch/lgf_scheduler.cpp:394-538 | What lies on a path of the plan with all its edges present is a homomorphism. |
| PlanWalks.NextNode | source/cuMatch/sched_plan_tree.cpp:228-243 | A step of the stack machine yields the next position of the tree in pre-order, and the empty stack exactly when none is left. |
| PlanWalks.PopGridGroup | source/cuMatch/sched_plan_tree.cpp:49-100 | Each call delivers the next vertex end of the walk, with its level, the level of the position right after the previous end, where the group begins, and, if it is complete, the shards of the whole path; it fails exactly when none is left. |
| PlanWalks.MakeSubtaskInfo | source/cuMatch/sched_plan_tree.cpp:245-253 | A subtask's shards are those along the iterator's stack, without its root. |
| TaskPackers.RequiredSize | source/cuMatch/sched_plan_tree.cpp:138-147 | Below 2 to the 32 the 32-bit sum is the size of the path's shards that are not yet in the cache, counted as often as they occur. |
| TaskPackers.TakeOver | source/cuMatch/sched_plan_tree.cpp:107-130 | A group left over by the previous task starts the next one, behind an entry for each of its ancestors; the size used is that of its distinct shards. |
| TaskPackers.PackGroups | source/cuMatch/sched_plan_tree.cpp:132-176 | Packing takes groups in order as long as there is room: every group packed had room when it was, and one left over has none, because its uncached shards would fill the capacity or it begins a first vertex with nine tenths of the bytes, shards or tree nodes already passed. The size used is the sum of what each group needed; the stored shards have no duplicate id, cover every subtask, are all used, and sum up to at most that size, which stays below the capacity. |
| TaskPackers.StopsUsed | source/cuMatch/sched_plan_tree.cpp:150-156 | The assertion at the break never fails: whenever packing stops, something has been packed. |
| PlanStreams.SchedPlanTree.PopSingleKernelTask | source/cuMatch/sched_plan_tree.cpp:102-181 | A call packs the next groups, as many as there is room for and no more, and leaves the others; it returns the size used, which is 0 exactly when none remained, and a group pending after a break is the first of the next call. |
| PlanStreams.CutOnce | source/cuMatch/sched_plan_tree.cpp:149-156 | What a call packs is settled by the groups that were left, the capacity and the number of query vertices: two cuts at which every group packed had room and the next has none are the same. |
| PlanStreams.OneTaskTakesAll | source/cuMatch/sched_plan_tree.cpp:149-156 | If the sizes of all complete paths left, their distinct shards and the bound on their tree nodes stay within nine tenths of the limits, a single task takes them all. |
| PlanStreams.SchedPlanTree.PopAll | source/cuMatch/device_manager.cu:273-281 | Calling it until it returns 0 ends, cuts all groups into consecutive parts, each ending exactly where the next group has no room, and lists all complete paths in order, each once. |
| PlanStreams.RunIsLeafPaths | source/cuMatch/sched_plan_tree.cpp:49-181 | The complete paths met by the walk are the root-to-leaf paths of the plan tree in pre-order, and a walk ends with a complete one. |
| WalkOrders.EndsInOrder | source/cuMatch/sched_plan_tree.cpp:112-115 | From one group to the next the walk goes down one query vertex or back up, and shares the path above it: the groups are a tree over query vertices. |
| TaskShapes.PackedFits | source/cuMatch/sched_plan_tree.cpp:112-174 | The entries a packed task records fit its subtasks: each complete path counts one subtask, and entries of groups that no subtask follows stand at the end. |
| TaskTrees.BuildLists | source/cuMatch/sched_plan_tree.cpp:264-299 | The rebuilt tree has every leaf at full depth with leaf k for subtask k, subtasks share a node at a depth only if their shards of the vertices above agree, each child records the first subtask beneath it, and there are at most V times S plus 1 nodes. |
| TreeCsrs.Compress | source/cuMatch/sched_plan_tree.cpp:308-325 | The four arrays hold the child lists: the pointers are prefix sums, and children, their parents and their first subtasks stand at those places. |
| TreeCsrs.EveryNodeOnce | source/cuMatch/sched_plan_tree.cpp:316-325 | Every node but the root is listed as a child exactly once. |
| TreeCsrs.ParentAndBack | source/cuMatch/sched_plan_tree.cpp:320-321 | Going to a node's parent and to one of its children leads back to the node. |
| TreeCsrs.BlockCovers | source/cuMatch/sched_plan_tree.cpp:316-325 | The arrays form the tree that the kernel's search requires, with the subtasks each node covers. |
| Headers.MapShards | source/cuMatch/device_manager.cu:468-471 | The map leads every stored shard id to a place that holds a shard of that id. |
| Headers.MakeHeader | source/cuMatch/device_manager.cu:434-654 | The header carries the tables, the task's shards, the tree, and for every subtask a list in which both slots of an edge lead to that edge's shard. |
| HeaderLayouts.LayOut | source/cuMatch/device_manager.cu:434-654 | The sections of a header are placed at multiples of 256, one after another without overlap, none left out, and end at the size returned. |
| HeaderLayouts.HeaderStruct | include/cu_match/device_defines.cuh:62-96 | The fixed part of the header has the 208 bytes that its fields take at their natural alignment with 64-bit pointers. |
| HeaderLayouts.HeaderFits | source/cuMatch/device_manager.cu:656-686 | Within the program's limits every header is smaller than the space set aside for it, as is asserted before each launch. |
| TaskLaunches.LaunchIsValid | source/cuMatch/device_manager.cu:434-654 | A header made for a packed task, for any of the three kernels, satisfies everything the kernel needs of its tables, shards, subtasks and tree. |
| TaskCounts.CountAnswers | source/cuMatch/LFTJ_kernel_negative.cu:375-556 | For a packed task and any of the three kernels, header, tree and grid of blocks together count the answers on the shards of each subtask, added up; for the negative kernel these have every regular edge and no negative one. |
| TaskStreams.TaskOfStream | source/cuMatch/sched_plan_tree.cpp:102-181 | Each popped task carries the shards of its own consecutive share of the plan's runs, and is one that can be launched. |
| RunMatches.SubtaskMatches | source/cuMatch/LFTJ_kernel_basic.cu:330-491 | The matches a subtask counts correspond one to one to the assignments whose edges lie in that run's shards. |
| RunLists.AllRunsList | source/cuMatch/device_manager.cu:322-421 | Matches listed run by run over all runs are exactly the homomorphisms that are wanted. |
| GraphMatches.LocalTestIsExact | source/cuMatch/LFTJ_kernel_constraint.cu:171-277 | Comparing local ids tells the constrained vertices apart, for every placement, if and only if each constrained label has a single grid row (see Findings). |
| ConstraintScopes.MatchMissed | source/cuMatch/LFTJ_kernel_constraint.cu:185-194 | A query and a graph with one match whose constrained vertices differ and that is not counted, because they lie in different grids under the same local id. |
| LinkedLists.PoolingList.EmplaceBackTo | include/ash/detail/list_base.h:63-76 | Inserts a fresh node behind the given one and keeps the chain, the tail and the size. |
| LinkedLists.PoolingList.EmplaceFront | include/ash/pooling_list.h:111-114 | Inserts a fresh node right behind the sentinel. |
| LinkedLists.PoolingList.EmplaceBack | include/ash/pooling_list.h:117-120 | Inserts a fresh node behind the tail. |
| LinkedLists.PoolingList.RemoveNode | include/ash/detail/list_base.h:109-123 | Takes exactly that node out of the chain and keeps the order of the others. |
| CachePolicies.LruPolicy.Add | include/gstream/framework3/detail/lru_cache_policy.h:22-25 | The new key is the last of the free keys, and the index covers exactly the keys of both lists. |
| CachePolicies.LruPolicy.Evict | include/gstream/framework3/detail/lru_cache_policy.h:27-36 | The first free key leaves the list and the index. |
| CachePolicies.LruPolicy.Lock | include/gstream/framework3/detail/lru_cache_policy.h:38-49 | A free key moves to the locked ones with count 1; a locked one counts one more; the count is returned. |
| CachePolicies.LruPolicy.Unlock | include/gstream/framework3/detail/lru_cache_policy.h:51-62 | The count drops by one, and at zero the key becomes the last of the free ones; the new count is returned. |
| CachePolicies.LruPolicy.MoveBack | include/gstream/framework3/detail/lru_cache_policy.h:64-68 | A free key becomes the last of the free keys. |
| CachePolicies.LruPolicy.MoveBackLocked | include/gstream/framework3/detail/lru_cache_policy.h:64-68 | On a locked key the same call joins the neighbours of a node of the lock list as if it were the free list's and appends a fresh one to the free list; afterwards no chain of nodes describes the lock list (see Findings). |
| LruHistories.VictimIsOldest | include/gstream/framework3/detail/lru_cache_policy.h:22-68 | After any permitted sequence of operations the next victim is the unlocked key whose last add, move or final unlock is the oldest. |
| LruHistories.CountsLocks | include/gstream/framework3/detail/lru_cache_policy.h:38-62 | After any permitted sequence of operations a key's reference count is the number of its locks less the number of its unlocks, and a key without a count has been unlocked as often as locked. |
| CacheControllers.CacheController.Add | include/cu_match/cache_controller.h:99-108 | Stores the entity, marks it valid and tells the policy; valid bits and policy keys stay the same set. |
| CacheControllers.CacheController.Evict | include/cu_match/cache_controller.h:110-122 | Reports failure exactly if every cached shard is locked; otherwise invalidates and returns the policy's victim, and no other entity changes. |
| CacheControllers.CacheController.Lock | include/cu_match/cache_controller.h:130-133 | Locks a cached key once more and returns its count. |
| CacheControllers.CacheController.Unlock | include/cu_match/cache_controller.h:135-138 | Unlocks a locked key once and returns its count. |
| CacheControllers.CacheController.Touch | include/cu_match/cache_controller.h:84-87 | Looking up a cached unlocked shard returns it and makes it the last to be evicted. |
| CacheControllers.CacheController.AllocateWithEvict | source/cuMatch/device_manager.cu:813-851 | The loop ends; it evicts in the policy's order just until the allocator finds room, and gives up only when every unlocked shard is gone. The buffers freed are those of the shards evicted, in that order; their entries become invalid, and every other entry stays as it was. |
| DoubleBuffers.DispatchedOnce | source/cuMatch/device_manager.cu:289-419 | In every finished run with any number of workers, every queued task is launched once and its counter added once, in whatever order. |
| DoubleBuffers.BuffersExclusive | source/cuMatch/device_manager.cu:304-405 | At every point of every run, no worker rewrites its host header while a copy of it is pending, or a device half while a copy or kernel on it is. |
| DoubleBuffers.StepsDecrease | source/cuMatch/device_manager.cu:322-418 | Every step lowers a measure, so that every run ends. |
| DoubleBuffers.NeverStuck | source/cuMatch/device_manager.cu:322-418 | While a worker is not done some step is possible. |
| BitReaders.ReadByteByByte | include/gstream/grid_format/dense_block.h:150-166 | For every width up to 32 and every index the byte-wise reader returns the bits of the value's place, most significant first. |
| BitReaders.ReadBitByBit | include/gstream/grid_format/dense_block.h:168-176 | So does the bit-wise version kept in the comment, and hence the two agree. |
| BitReaders.BitsOfValue | include/gstream/grid_format/dense_block.h:168-176 | Bit i of the value, the most significant first, is bit 7 - p mod 8 of byte p / 8, where p is the width times the index plus i and byte addresses have 32 bits. |
| BitReaders.ValueOfBytes | include/gstream/grid_format/dense_block.h:150-166 | A value as wide as n bytes is the big-endian number in the n bytes at n times the index. |
| BitReaders.ValueOfOneOrTwo | include/gstream/grid_format/dense_block.h:150-166 | With width 8 the value is the byte of its index; with width 16 it is 256 times the byte at twice the index plus the byte after it. |
| Bits.OrBits | include/gstream/grid_format/dense_block.h:154-163 | A bit of x or y is set if and only if it is set in one of the two. |
| FlippedArrays.ReadElement | include/gstream/flip24_array.h:28-39 | Reads the 24-bit element of the index, whichever way it is stored. |
| FlippedArrays.ReadElementAt | include/gstream/flip24_array.h:42-52 | The reader that starts at the element's bytes returns the same element. |
| FlippedArrays.WriteElement | include/gstream/flip24_array.h:77-86 | Writing an element makes it read back as written and changes no byte of any other. |
| FlippedArrays.Memset | include/gstream/flip24_array.h:136-140 | Filling sets exactly the first elements and keeps the others. |
| QueryParsers.ParseEdge | source/cuMatch/simple_parser.cpp:113-197 | The parser accepts a string as an edge if and only if the string is a text of that edge: printing and parsing undo each other in both directions. It reports an error if and only if the string is not made of the pieces of any edge, and an assertion fails if and only if it is, but with brackets missing or names too long. |
| QueryParsers.TextsDiffer | source/cuMatch/simple_parser.cpp:124-176 | No string is a text of two edges. |
| QueryParsers.ParseConstraint | source/cuMatch/simple_parser.cpp:199-256 | A string is accepted as a constraint if and only if it is that constraint's text and the constraint has two different names; an assertion fails if and only if the sign stands between two equal names or a name is too long. |
| QueryParsers.ParsedAreDistinct | source/cuMatch/simple_parser.cpp:240 | Hence no constraint of a parsed query names one vertex twice, as the constraint kernel needs. |

## Findings

- The NOT_EQUAL test compares local ids only (LFTJ_kernel_constraint.cu:190), and two vertices of one label in different
  grid rows may have the same local id. `GraphMatches.LocalTestIsExact` gives the exact condition under which the test
  is right for all placements: every constrained label has a single grid row. `ConstraintScopes.MatchMissed` gives a
  query, a data graph and a match for which it fails; `EndToEnd.CountMatches` therefore states what is counted with the
  test as it is coded.
- `move_back` (lru_cache_policy.h:64-68) does not ask whether the key is locked. On a locked key it removes the node
  from the lock list through the free list, so that the lock list's size, and possibly its tail, no longer describe any
  chain: `CachePolicies.LruPolicy.MoveBackLocked`. The non-const `get` of the controller (cache_controller.h:84-87)
  calls it without a check; with a key that is not cached at all, the index even supplies a null node. `Touch` requires
  what keeps the call safe.
- `edge_type_list` is allocated with one entry per edge and indexed by slot, of which there are two per edge
  (lgf_scheduler.cpp:211 and 283-298). The model gives it the 2E entries that are used.
- The negative kernel is launched with 5760 blocks (kernel_executor.cu:49-56) while its split divides the first list by
  3840; `KernelGrids.SharesCover` shows that the surplus blocks get empty shares and do no harm.

## Left out

- The optional, optional-constraint and negative-constraint kernels, and the table join with its schedule and tree.
- EndToEnd.CountMatches: is stated for regular directed queries; that the planner finds every match of a query with
  optional, negative or undirected edges is not. For negative queries the chain is closed per packed task, by
  `TaskCounts.CountAnswers`.
- TaskPackers.RequiredSize: does not model the wrap-around of the program's 32-bit sum; sizes along a path are required
  to stay below 2 to the 32, and below the capacity.
- KernelGrids.RunGrid: does not model the wrap-around of the 64-bit counter; block numbers stay below 65536 and column
  lists below 2 to the 31, where the search's midpoint would overflow.
- CachePolicies.LruPolicy.Lock: does not model the wrap-around of the reference count.
- The exits of the program on more than 500 tree nodes or 300 shards in a task: `CountMatches` counts there as well. The
  limits appear in `HeaderLayouts`.
- The traversal of the shard tree: the shard pairs of a cell are a given sequence. They are assumed to partition the
  cell's edges, their recorded ranges to bound them, their sizes to be positive, and shard ids to identify shards.
- The kernel's shared memory: its per-depth arrays become one sequence of levels passed through the methods of
  `ThreadBlocks`, because they live only as long as a block; aliasing between them, which the kernel does not use,
  cannot be expressed. Lanes and barriers are dropped, and atomic additions come in any order.
- Reading rows and columns through the 24-bit arrays inside the kernel: there they are given decoded. `FlippedArrays`
  treats the encoding on its own, without swapping of elements.
- Negative queries with a vertex that has no regular edge, and constraints between a vertex and itself: both are outside
  `VariantFits`. The constraint parser refuses the second kind; nothing in the program refuses the first.
- The bytes of a header: `Headers.MakeHeader` gives the content, `HeaderLayouts.LayOut` the places, with sections as
  sizes.
- The buddy allocator: `AllocateWithEvict` takes it as a parameter that answers after every number of evictions.
- Copies of single shards in the dispatcher: a launch's shard copies are one step, a stream executes in order, and the
  result of popping an empty queue, dereferenced before it is checked, counts as unused. The graph loader for several
  devices and the overlap of copies with eviction are not part of this model.
- The JSON reader, vertex texts, and the truncation of names at a null character.
- The CUDA runtime, file input, timing and printing, the graph converter and the CSV tools.
