# azcp verification

A Dafny model of azcp, a transfer tool between local disks and Azure Blob Storage, and of azcp-cluster, its
MPI companion that downloads a dataset once and spreads it to every node. The project proves what the two
programs are for: every rank of a cluster job ends with every file byte for byte, whatever the interleaving;
the work is shared out almost as evenly as possible; transfers never deadlock, never exceed their limits and
leave the right bytes; a second sync finds nothing to do, wherever the program can promise that.

`dafny verify dfyconfig.toml` checks everything.

## How it is organised

* **The broadcast stage** (`Pipeline*.dfy`). One rank is a value: buffers, free deque, in-flight list, per-file
  counters, the writers' FIFO channels, the disk, and a history of what was posted. Each loop step of the driver
  and each turn of a writer is a function on it (`PipelineModel`); `PipelineWorld` joins all ranks through MPI.
  `PipelineInv` states what holds between any two steps, one file per kind of step proves that it is kept, and
  `PipelineSafety`, `PipelineTheorems`, `PipelineProgress`, `PipelineMeasure`, `PipelineStarve`,
  `PipelineStarveRun`, `PipelineStuck`, `PipelineOutcome` and `PipelineCommands` draw the consequences for whole runs. `PipelineDriver` is
  the driver and the writer in the form of the program, as classes whose methods update fields, arrays and maps in
  place; each method is proved to do exactly the corresponding step of the model.
* **The plan** (`Shards`, `ShardTiling`, `ShardCuts`, `ShardLoads`, `Lpt`, `Presence`, `Diff`, `PlanAssembly`,
  `PlanReady`, `PlanDisk`, `DownloadShare`, `JobRuns`, `Rounding`). Cutting and assigning shards, the packed presence
  matrix, the split of the listing, the assembled plan, each rank's share of the downloads, the disks up to the
  barrier, and the theorems about the whole job.
* **The transfer engine** (`DownloadProtocol`, `Landing`, `DownloadLands`, `UploadProtocol`, `BlockIds`, `RateLimiter`,
  `RateCharges`, `Latency`), **partitioning without coordination** (`Partition`, `FileOwners`), **the saved file list**
  (`Filelist`) and **sync** (`Sync`).
* `Types`, `Arith`, `Counting` and `Sorting` hold what the others share.

## Modelling choices

* **MPI.** A collective's payload may be taken from the root at any moment after the root posted it, and a request
  may complete at any moment after that; all safety results hold for this liberal reading. Progress is proved under
  the opposite reading: a collective is sure to move only when every rank has posted it, as section 5.12 of the
  MPI 3.1 standard allows. `MPI_Waitany` returns any completed request.
* **Errors** end a run. Reads that come up short, failed system calls and failed requests are not steps of the
  broadcast model; in the download and upload protocols a request or write may fail at any time, with a partial write.
* **Files** are byte sequences. A positional write past the end extends the file with zeros; a read sees what the
  writers of the same rank have written so far.
* **Time** and the percentile target are real numbers. Rust's `f64` rounding is not modelled.
* **Presence.** That a file which counts as present also has the service's contents is an assumption of the
  theorem about the whole job (`PlanDisk.Truthful`); the program compares sizes or a saved list.
* **Listings.** A listing shows all names with the given prefix, in one fixed order of names that is a parameter. Which
  of several downloads to one local file stays is a parameter too.

## Findings

* The blocking receive at `crates/azcp-cluster/src/stages/broadcast.rs:424` can wait for ever. It is entered
  whenever nothing is in flight and work remains, also when the drain just before it has taken the last outstanding
  acknowledgement. `StarvationIff` says exactly when: for a rank that has at least as many chunks to write, before
  the last piece of work of the plan, as the pipeline has buffers. The run it builds uses only steps that every MPI
  has to let happen. `DepthOneStarves` is the smallest case and `StarvedForever` shows that such a run never
  completes. `CompletionIff` draws the line for the whole stage: every run completes if and only if the plan can
  starve no rank; `SomeRunCompletes` shows that even then some run of every plan does. `JobCompletesIff` says the same
  of a whole job, in terms of who lacks which file.
* The comment at `src/storage/blob/client.rs:33` describes histogram bucket i as (2^(i-1), 2^i] milliseconds; the code
  at `src/storage/blob/client.rs:58-68` makes it [2^(i-1), 2^i) of the whole milliseconds (`BucketIs`). The model
  follows the code.
* `src/engine/rate_limiter.rs:72` charges at most one second's permits for any request. The rate limiter keeps the
  byte rate for every run exactly when no single request exceeds one second's bytes (`BytesBounded`, `BytesExceeded`).
* `compute_shard_size_from_file_shards` multiplies without an overflow check
  (`crates/azcp-cluster/src/stages/shards.rs:56`). `DerivedQualifies` gives the exact condition under which the derived
  size still is a whole number of chunks, and `DerivedWraps` an input at which it is not: one file of 2^64 - 1 bytes,
  one shard, chunks of 12288 bytes give 8192. The broadcast stage is unharmed: `EffectiveSizeAligned` shows that the
  size keeps the alignment O_DIRECT needs, wrapped or not.
* `owners::compute` (`crates/azcp-cluster/src/stages/owners.rs:11`) and `apply_shard` (`src/engine/mod.rs:1282`) break
  ties differently. `AgreeIff` proves that they agree on a listing for every number of workers if and only if its
  entries of equal, positive size stand in name order; `ComputeCanDiffer` gives a listing on which they disagree.
* A second sync need not find what the first has uploaded. `SecondUpload` and `ConvergenceIff` give the exact
  condition for every store, path and order of the listing: the path has at most one trailing slash, and no other
  listed blob that reads as the same relative name stands behind the upload.
  With two or more trailing slashes the upload's name is trimmed (`src/engine/mod.rs:453-462`) while the listing at
  `src/cli/sync_cmd.rs:288-290` and `remote_index` at `src/cli/sync_cmd.rs:146-151` go by the path as given:
  `DirtyPathPlansTheSame`, and at the path `//` `DoubleSlashUploadsAgain`.
  With any path the listing is by raw prefix, and the last blob of a relative name stays in the index
  (`src/cli/sync_cmd.rs:139-172`): below `data` the blob `data2/x` stands for `2/x` (`SiblingUploadsAgain`). For the same
  reason `--delete-destination` then leaves such blobs behind (`UploadMirrors`), and a download by size never settles
  when two blobs of different sizes share a local file (`DownloadConvergenceIff`).
* Sync builds its engine without digests (`check_md5: false`, `src/cli/sync_cmd.rs:52`), while a sync by digest starts
  with a check that refuses listed blobs without one (`src/cli/sync_cmd.rs:171-201`). `NoDigestNoSync`: when the
  service records none for an upload that is listed and not empty, the next `--compare-method md5` sync is refused.

## Model

| member | source | states |
|---|---|---|
| PipelineTheorems.IdenticalCopies | crates/azcp-cluster/src/stages/broadcast.rs:115-590 | whatever the interleaving of posts, completions, acknowledgements and writers on all ranks, when a rank is done its copy of every planned file equals the source, length included |
| PlanDisk.EveryRankEndsWithEveryFile | crates/azcp-cluster/src/main.rs:100-351 | the whole job from presence matrix to broadcast, for every accepted set of arguments: a rank that is done has every listed file as the service has it, files it had before included |
| JobRuns.JobCompletesIff | crates/azcp-cluster/src/stages/broadcast.rs:263-484 | for every accepted set of arguments every run of the stage that goes on as long as it can ends with all ranks done, if and only if no rank receives as many chunks as there are buffers before the last piece of work of the job |
| JobRuns.PresentNotWritten | crates/azcp-cluster/src/stages/broadcast.rs:246-251 | in no run of a job is a writer told anything about a file its rank already has |
| JobRuns.ReceivedWritten | crates/azcp-cluster/src/stages/broadcast.rs:300-483 | a rank that has left its loop has opened every file it lacks and does not broadcast alone, at the writer its number gives, and told that writer each chunk of it as often as the plan cuts it |
| PipelineTheorems.CollectivesMatch | crates/azcp-cluster/src/stages/broadcast.rs:356-383 | the k-th broadcast posted by any rank has the same root and length as the k-th of every other rank, and the length is a positive C int |
| PipelineSafety.PostsArePrefix | crates/azcp-cluster/src/stages/broadcast.rs:263-394 | what a rank has posted is a beginning of the one posting order the plan fixes, and all of it once no work is left |
| PipelinePosts.SubPostsTile | crates/azcp-cluster/src/stages/broadcast.rs:356-383 | the sub-broadcasts of a chunk follow each other without gap from its first to its last byte |
| PipelinePosts.ShardChunksAre | crates/azcp-cluster/src/stages/broadcast.rs:337-341 | the k-th chunk of a shard starts k chunk sizes into it and is a whole chunk unless it ends the shard; which k exist |
| PipelinePosts.PlanChunksAre | crates/azcp-cluster/src/stages/broadcast.rs:264-337 | the chunks of a shard go out after those of all earlier shards and before those of all later ones |
| PipelinePosts.SubPostsAre | crates/azcp-cluster/src/stages/broadcast.rs:258-260 | a chunk goes out in broadcasts of 1 GiB, of which only the last may be shorter |
| PipelinePosts.WritersShare | crates/azcp-cluster/src/stages/broadcast.rs:300-316 | files whose numbers differ by less than the number of writers go to different writers, and numbers that far apart to the same one |
| PipelineTheorems.SlotConservation | crates/azcp-cluster/src/stages/broadcast.rs:337-481 | in every reachable state each slot is in exactly one of the free deque, flight, a writer's queue and the ack channel; its sub-broadcast count is right; its buffer is missing exactly while it is with a writer |
| PipelineTheorems.RefillIsSafe | crates/azcp-cluster/src/stages/broadcast.rs:337-355 | the buffer the next chunk is read into is in no unfinished broadcast, queued write or unread acknowledgement |
| PipelineReap.ReapIsOk | crates/azcp-cluster/src/stages/broadcast.rs:454-483 | when a completed request is handed back, its slot is in flight and holds its buffer, and its file is known |
| PipelinePost.ReadIsOk | crates/azcp-cluster/src/stages/broadcast.rs:337-355 | a free slot always has its buffer, and the owner's read finds its bytes in the file even while its own writer writes to it |
| PipelineTheorems.LifeMeans | crates/azcp-cluster/src/stages/broadcast.rs:515-583 | the per-file automaton accepts exactly the command logs of the form one Open, Writes, one Close |
| PipelineTheorems.FileLifeCycle | crates/azcp-cluster/src/stages/broadcast.rs:300-323 | in every reachable state each writer has been sent, per file, at most one Open first, nothing before it and nothing after the Close |
| PipelineTheorems.WriterNeverFails | crates/azcp-cluster/src/stages/broadcast.rs:533-554 | a writer's next command is runnable: a Write or Close finds its file open, an Open finds it not open and carries the listed size |
| PipelineTheorems.EveryOpenIsClosed | crates/azcp-cluster/src/stages/broadcast.rs:489-508 | when a rank's driver has left its loop every file it opened has been closed exactly once; when its writers have run too, none has the file open |
| PipelineCommands.NeedlessNever | crates/azcp-cluster/src/stages/broadcast.rs:246-251 | in no reachable state has a writer been sent a command about a file that its rank has, or owns all shards of, or that is empty |
| PipelineCommands.NeedlessUntouched | crates/azcp-cluster/src/stages/broadcast.rs:246-251 | no run changes such a file on the rank's disk |
| PipelineCommands.EveryChunkOnce | crates/azcp-cluster/src/stages/broadcast.rs:454-483 | when a driver has left its loop, every other planned file has an Open in its writer's log and each of its chunks is written exactly as often as the plan cuts it |
| PipelineTheorems.UnplannedKept | crates/azcp-cluster/src/stages/broadcast.rs:510-590 | no run of the stage changes a file that is not in the plan |
| PipelineSafety.ReachableInv | crates/azcp-cluster/src/stages/broadcast.rs:263-484 | the invariant of all ranks and of the payloads under way holds in every reachable state |
| PipelineTake.TakeKeeps | crates/azcp-cluster/src/stages/broadcast.rs:264-335 | starting the next shard, with its Open when due and the zero-length shortcut, keeps the rank's invariant |
| PipelinePost.PostKeeps | crates/azcp-cluster/src/stages/broadcast.rs:337-394 | filling a buffer and posting its broadcasts keeps the rank's invariant |
| PipelineAck.AckKeeps | crates/azcp-cluster/src/stages/broadcast.rs:396-438 | taking an acknowledgement, in the drain or in the blocking receive, keeps the rank's invariant |
| PipelineReap.ReapKeeps | crates/azcp-cluster/src/stages/broadcast.rs:440-483 | handling a completed request, the last of its slot or not, keeps the rank's invariant |
| PipelineWrite.WriteKeeps | crates/azcp-cluster/src/stages/broadcast.rs:515-583 | a writer's turn, including the padded write and the final set_len, keeps the rank's invariant |
| PipelineWrite.WriteBytes | crates/azcp-cluster/src/stages/broadcast.rs:542-549 | a rounded-up write puts the chunk's bytes in place, every other byte below the file's size stays or becomes the source's, and only O_DIRECT can lengthen the file |
| PipelineComplete.CompleteKeeps | crates/azcp-cluster/src/stages/broadcast.rs:359-370 | the arrival of a payload in a receiver's buffer keeps the rank's invariant |
| PipelineComplete.InitHolds | crates/azcp-cluster/src/stages/broadcast.rs:139-143 | the state built before the loop satisfies the invariant when the local disk is ready |
| PipelineProgress.Progress | crates/azcp-cluster/src/stages/broadcast.rs:263-484 | in every reachable unfinished state in which no rank waits in the ack receive with nothing outstanding, some step is sure to be possible |
| PipelineMeasure.StepUsesWork | crates/azcp-cluster/src/stages/broadcast.rs:263-484 | every step of every rank, writer or collective lowers one natural number |
| PipelineMeasure.RunsAreFinite | crates/azcp-cluster/src/stages/broadcast.rs:263-484 | no run is longer than the work at its start |
| PipelineStarve.StarvedIsStarvable | crates/azcp-cluster/src/stages/broadcast.rs:424-438 | a rank that waits with nothing outstanding has at least `depth` chunks to write before the last piece of work |
| PipelineStarveRun.StarvationIff | crates/azcp-cluster/src/stages/broadcast.rs:416-438 | some run makes a rank wait for an acknowledgement that cannot come, if and only if the plan gives it that many chunks to write; so it is when MPI moves collectives as late as it may |
| PipelineStuck.StarvedForever | crates/azcp-cluster/src/stages/broadcast.rs:424-438 | once a rank waits so, no continuation of the run completes |
| PipelineStuck.DepthOneStarves | crates/azcp-cluster/src/stages/broadcast.rs:416-438 | with one buffer, a two-chunk file is enough to starve the receiving rank, under every MPI |
| PipelineOutcome.CompletionIff | crates/azcp-cluster/src/stages/broadcast.rs:263-484 | every run that goes on as long as it can ends with all ranks done, if and only if the plan can starve no rank; for the slowest MPI and for the fastest |
| PipelineOutcome.MaximalRunCompletes | crates/azcp-cluster/src/stages/broadcast.rs:263-484 | when the plan can starve no rank, a reachable state in which nothing is sure to happen is the end on all ranks |
| PipelineOutcome.SomeRunCompletes | crates/azcp-cluster/src/stages/broadcast.rs:263-484 | from every start, with any number of buffers and any plan, some run ends with all ranks done under every MPI |
| PipelineDriver.FileTable | crates/azcp-cluster/src/stages/broadcast.rs:219-252 | the two loops compute, for exactly the planned files, the number of shards, and that this rank writes the file if and only if it lacks it, does not own all its shards, and the file is not empty |
| PipelineDriver.Driver.constructor | crates/azcp-cluster/src/stages/broadcast.rs:139-143 | the freshly built driver is the model's initial rank |
| PipelineDriver.Driver.Close | crates/azcp-cluster/src/stages/broadcast.rs:489-508 | maybe_close_file in place is the model's, other fields unchanged |
| PipelineDriver.Driver.TakeShard | crates/azcp-cluster/src/stages/broadcast.rs:265-335 | the in-place update is exactly the model's step |
| PipelineDriver.Driver.PostSubs | crates/azcp-cluster/src/stages/broadcast.rs:356-383 | the sub-broadcast loop posts exactly the tiling sub-broadcasts and counts them for the slot |
| PipelineDriver.Driver.PostNext | crates/azcp-cluster/src/stages/broadcast.rs:337-393 | the in-place update is exactly the model's step |
| PipelineDriver.Driver.FillSlots | crates/azcp-cluster/src/stages/broadcast.rs:264-394 | the posting loop runs the model's steps until no slot is free or no work is left, and keeps the invariant |
| PipelineDriver.Driver.Acknowledge | crates/azcp-cluster/src/stages/broadcast.rs:402-407 | the in-place update is exactly the model's step |
| PipelineDriver.Driver.DrainAcks | crates/azcp-cluster/src/stages/broadcast.rs:396-414 | the drain loop takes all acknowledgements in order and keeps the invariant |
| PipelineDriver.Driver.Completed | crates/azcp-cluster/src/stages/broadcast.rs:454-483 | the in-place update is exactly the model's step |
| PipelineDriver.Writer.Turn | crates/azcp-cluster/src/stages/broadcast.rs:517-585 | one turn of the writer on its file map is the model's; it fails exactly on a write to a file that is not open |
| Rounding.RoundingIsSafe | crates/azcp-cluster/src/stages/broadcast.rs:542-548 | with O_DIRECT every padded write is aligned at both ends, fits its buffer, meets no other chunk, and passes the file end only for the file's last chunk |
| Rounding.PlanChunksCount | crates/azcp-cluster/src/stages/broadcast.rs:337-341 | a byte is in as many chunks as shards |
| Shards.ComputeShards | crates/azcp-cluster/src/stages/shards.rs:75-128 | the loops over files, shards and the sorted order compute the specified plan, with no offset leaving 64 bits |
| Shards.AssignOwners | crates/azcp-cluster/src/stages/shards.rs:104-127 | the packing loop, with its load array and in-place owners, computes the specified assignment |
| ShardCuts.ShardsAreCut | crates/azcp-cluster/src/stages/shards.rs:79-98 | with a shard size each shard of the plan starts at its index times that size, none is longer, and one that does not end its file is exactly that long |
| ShardCuts.ShardsOfFile | crates/azcp-cluster/src/stages/shards.rs:59-65 | without a shard size the plan has one shard of each file; with one, the least number that holds the file, and one for an empty file |
| ShardCuts.FewShards | crates/azcp-cluster/src/stages/shards.rs:44-65 | with --file-shards and no wrap-around the plan has at most the requested number of shards of any file |
| ShardCuts.HandedOut | crates/azcp-cluster/src/stages/shards.rs:104-127 | shards are handed out longest first, equal ones in plan order, each to the rank with the fewest bytes so far |
| ShardCuts.EqualShardsGoRound | crates/azcp-cluster/src/stages/shards.rs:104-127 | when all shards are equally long and the bytes fit in 64 bits, they go to the ranks in turn, in plan order |
| ShardTiling.PlanTiles | crates/azcp-cluster/src/stages/shards.rs:59-128 | shards tile each file in order without gap or overlap, each byte in exactly one; only empty files have an empty shard; lengths add up to the total; owners are below max(count, 1) |
| ShardTiling.EveryFileListed | crates/azcp-cluster/src/stages/shards.rs:21-22 | every file has a shard, empty files included |
| ShardTiling.CutsWhole | crates/azcp-cluster/src/stages/shards.rs:82-89 | with a shard size of zero or whole chunks, every shard starts on a chunk boundary and is whole chunks or ends its file |
| ShardTiling.DerivedQualifies | crates/azcp-cluster/src/stages/shards.rs:44-57 | the size derived from --file-shards is a whole number of chunks if and only if the product does not wrap or the chunk divides 2^64 |
| ShardTiling.DerivedWraps | crates/azcp-cluster/src/stages/shards.rs:56-56 | an input at which the product wraps and the derived size is not whole chunks |
| ShardTiling.DerivedCount | crates/azcp-cluster/src/stages/shards.rs:44-57 | without wrap-around no file is cut into more than the requested number of shards |
| ShardTiling.DerivedIsLeast | crates/azcp-cluster/src/stages/shards.rs:44-57 | without wrap-around the derived size is the least whole number of chunks of which the requested number of shards holds the largest file |
| ShardLoads.PlanIsNearBest | crates/azcp-cluster/src/stages/shards.rs:104-127 | when the bytes fit in 64 bits, no rank gets more than (4/3 - 1/(3m)) times the busiest rank of any other assignment of the same shards |
| ShardLoads.PlanSpread | crates/azcp-cluster/src/stages/shards.rs:104-127 | two ranks never differ by more than the largest shard |
| Lpt.GrahamBound | crates/azcp-cluster/src/stages/shards.rs:116-126 | greedy packing of descending jobs is within 4/3 - 1/(3m) of any assignment |
| Lpt.GrahamIsTight | crates/azcp-cluster/src/stages/shards.rs:116-126 | an input on which the bound is met with equality |
| Lpt.TwiceBound | crates/azcp-cluster/src/stages/shards.rs:116-126 | greedy packing in any order is within 2 - 1/m of any assignment |
| Lpt.SpreadBound | crates/azcp-cluster/src/stages/shards.rs:116-126 | greedy packing in any order keeps two bins within the largest job |
| Lpt.LoadsExact | crates/azcp-cluster/src/stages/shards.rs:124-124 | the saturating additions never saturate while the total fits in 64 bits: the load array holds the assigned sums |
| Lpt.LoadsSaturate | crates/azcp-cluster/src/stages/shards.rs:124-124 | whatever the total, a load is the sum of its jobs, capped at 2^64 - 1 |
| Lpt.EqualJobsGoRound | crates/azcp-cluster/src/stages/shards.rs:116-126 | jobs of one size go to the bins in turn |
| Lpt.LeastLoaded | crates/azcp-cluster/src/stages/shards.rs:118-123 | the chosen bin has the smallest load, and the lowest index among those |
| PresenceMatrix.LocalRow | crates/azcp-cluster/src/stages/presence.rs:58-67 | bit i of the row is set exactly when entry i is present, padding bits are clear |
| PresenceMatrix.MatrixTells | crates/azcp-cluster/src/stages/presence.rs:25-37 | reading the gathered matrix gives back what each rank found locally |
| PresenceMatrix.Presence.FirstHaver | crates/azcp-cluster/src/stages/presence.rs:35-37 | the lowest rank that has the file, or none when no rank has it |
| Diff.Classify | crates/azcp-cluster/src/stages/diff.rs:9-28 | files nobody has, in order; files some but not all have, in order, each with its lowest holder; the rest counted as skipped |
| Diff.OneSplit | crates/azcp-cluster/src/stages/diff.rs:9-28 | these conditions leave one classification |
| PlanAssembly.BuildBcastShards | crates/azcp-cluster/src/main.rs:196-223 | re-keyed download shards and peers' whole files, sorted by file and shard |
| PlanAssembly.CollectRanges | crates/azcp-cluster/src/main.rs:227-240 | the ranges of the shards the rank owns, in plan order |
| PlanAssembly.OwnedInOrder | crates/azcp-cluster/src/main.rs:227-240 | the shards a rank downloads keep the order of the plan |
| PlanAssembly.FilesToCreate | crates/azcp-cluster/src/main.rs:246-252 | exactly the planned files the rank lacks |
| PlanAssembly.BcastCovers | crates/azcp-cluster/src/main.rs:193-223 | each byte of each file some rank lacks is in exactly one broadcast shard, and nothing of the other files |
| PlanReady.BcastInOrder | crates/azcp-cluster/src/main.rs:196-223 | the broadcast shards stand by file, those of one file by position |
| PlanAssembly.RangesCover | crates/azcp-cluster/src/main.rs:225-240 | together the ranks download each byte of each file nobody has exactly once, nothing else, and only ranks below the download rank count download |
| DownloadShare.ShareIsNearBest | crates/azcp-cluster/src/main.rs:193-240 | when the bytes fit in 64 bits, no rank's ranges add up to more than (4/3 - 1/(3k)) times the busiest of any other distribution of the same ranges over the k download ranks |
| DownloadShare.ShareSpread | crates/azcp-cluster/src/main.rs:193-240 | the ranges of two download ranks never differ by more bytes than the longest range |
| DownloadShare.LeadMeans | crates/azcp-cluster/src/main.rs:129-184 | without --download-ranks all ranks download, with it that many; --shard-size is the size in effect, and without either option files are not cut |
| DownloadShare.RangesAreCut | crates/azcp-cluster/src/main.rs:166-240 | with --shard-size no range is longer, each starts at a multiple of it, and a shorter one ends its file |
| DownloadShare.FewRanges | crates/azcp-cluster/src/main.rs:166-194 | without either option a file is one range; with --file-shards and no wrap-around at most that many |
| DownloadShare.RangesAreDerived | crates/azcp-cluster/src/main.rs:166-240 | with --file-shards and no wrap-around no range is longer than the least whole number of chunks of which that many hold the largest file to download |
| PlanReady.OwnerWillHold | crates/azcp-cluster/src/main.rs:196-240 | the owner of every broadcast shard has the file already or downloads exactly that range |
| PlanReady.StageIsValid | crates/azcp-cluster/src/main.rs:166-223 | the assembled plan meets every precondition of the broadcast stage whenever the shard size keeps to the boundary that O_DIRECT needs |
| PlanReady.PlannedIsLacking | crates/azcp-cluster/src/main.rs:193-223 | a file is in the plan if and only if some rank lacks it |
| PlanReady.EffectiveSizeWhole | crates/azcp-cluster/src/cli.rs:149-174 | after argument validation the shard size in effect is whole chunks, if and only if it is not a wrapped size derived from --file-shards at a chunk that does not divide 2^64 |
| PlanReady.EffectiveSizeAligned | crates/azcp-cluster/src/main.rs:166-192 | for every accepted set of arguments, wrapped sizes included, the shard size in effect keeps to the boundary that O_DIRECT needs |
| PlanDisk.PreSize | crates/azcp-cluster/src/main.rs:253-291 | in whatever order the set is walked, the listed files end at full size, every other path is untouched, and no other path appears |
| PlanDisk.BarrierLands | crates/azcp-cluster/src/main.rs:242-344 | whatever the schedule of the download engine, at the barrier the rank's disk is the pre-sized one with exactly its own ranges landed |
| PlanDisk.PresentKept | crates/azcp-cluster/src/main.rs:242-344 | pre-sizing and downloading never touch a file the rank already has |
| PlanDisk.ReadyAtBarrier | crates/azcp-cluster/src/main.rs:242-344 | at the barrier every rank's disk is what the broadcast stage assumes |
| DownloadProtocol.GroupByPath | src/engine/mod.rs:1000-1003 | the ranges of each local path, all of them, in their order |
| DownloadProtocol.PiecesCover | src/engine/mod.rs:1083-1091 | the chunks of a group hold exactly the bytes of its ranges |
| DownloadProtocol.PieceSizes | src/engine/mod.rs:1083-1091 | a range goes in full blocks from its first byte on; only its last chunk may be shorter |
| DownloadProtocol.ChunkSizes | src/engine/mod.rs:1083-1091 | each chunk of a group lies in one of its ranges, is at most a block long, and is shorter only where it ends the range |
| DownloadProtocol.PiecesCount | src/engine/mod.rs:1083-1091 | a byte is in as many chunks of a group as ranges: no range has a byte requested twice |
| DownloadProtocol.InFlightBounded | src/engine/mod.rs:1052-1132 | at no moment more than `concurrency` GETs in flight or more than max(parallel_files, 1) files open |
| DownloadProtocol.PermitsAreUsed | src/engine/mod.rs:1052-1132 | no permit is left unused: with fewer chunks under way than the limit the next can start, with fewer files open the next can open |
| DownloadProtocol.NoDeadlock | src/engine/mod.rs:1052-1173 | in every reachable state some step is possible until every file task has finished |
| DownloadProtocol.RunsEnd | src/engine/mod.rs:1052-1173 | no run has more steps than the work at its start |
| DownloadProtocol.MaximalRunFinishes | src/engine/mod.rs:1052-1173 | a run that goes on as long as it can has closed every file, after at most that many steps |
| DownloadProtocol.ContentsCorrect | src/engine/mod.rs:1103-1152 | a file reported as done has the requested bytes from the blob and all others unchanged, under any schedule and whatever fails elsewhere |
| DownloadLands.ForPathInOrder | src/engine/mod.rs:1000-1003 | the ranges of one local path keep the order in which they came |
| DownloadLands.EngineLands | src/engine/mod.rs:993-1186 | any schedule leaves in a file what landing its ranges one after the other would |
| DownloadLands.DownloadedLands | src/engine/mod.rs:993-1186 | a run of the whole call that reports success, with any settings, order of files and schedule, leaves the disk as landing all ranges one after the other would |
| BlockIds.IdsDistinct | src/engine/mod.rs:503-508 | no two blocks of a file share an id |
| BlockIds.Base64Injective | src/engine/mod.rs:506-506 | different byte strings have different Base64 encodings |
| BlockIds.FourIs | src/engine/mod.rs:506-506 | four symbols hold the bits of three bytes in order; missing bytes count as zeros, and groups without any bit are padding |
| BlockIds.IdTextIs | src/engine/mod.rs:503-508 | a block id is the encoding of at least six digits whose value is the block's number |
| BlockIds.FirstId | src/engine/mod.rs:503-508 | the first block of every file has the id MDAwMDAw |
| BlockIds.EqualLengths | src/engine/mod.rs:504-508 | all ids of a file have the same length if and only if it has at most 1,000,000 blocks |
| UploadProtocol.CommitIsFile | src/engine/mod.rs:619-622 | the block list in number order stands for the whole file |
| UploadProtocol.BlockSizes | src/engine/mod.rs:503-541 | every block but the last is a full block, and the last one is what is left, not empty |
| UploadProtocol.OneRequestIff | src/engine/mod.rs:469-469 | in every run a file goes up in one request if and only if it is empty or shorter than a block, and otherwise in the least number of blocks that hold it |
| UploadProtocol.UploadedIsFile | src/engine/mod.rs:453-637 | a file reported as uploaded is at the service byte for byte, whatever the order of the block uploads |
| UploadProtocol.NoDeadlock | src/engine/mod.rs:538-623 | the commit's permit and the blocks' permits cannot block each other: some step is possible until all files are done |
| UploadProtocol.InFlightBounded | src/engine/mod.rs:538-623 | at no moment more than `concurrency` requests in flight, whole files, blocks and commits together |
| UploadProtocol.PermitsAreUsed | src/engine/mod.rs:470-619 | no permit is left unused: with fewer requests in flight than the limit, a file, block or commit that waits for one can have it |
| UploadProtocol.RunsEnd | src/engine/mod.rs:453-637 | no run has more steps than the work at its start |
| UploadProtocol.MaximalRunFinishes | src/engine/mod.rs:453-637 | a run that goes on as long as it can has finished every file, after at most that many steps |
| RateLimiter.PermitsBounded | src/engine/rate_limiter.rs:40-79 | over every run permits granted plus permits free never exceed the rate times the time, and free permits never exceed one second's worth |
| RateLimiter.BytesBounded | src/engine/rate_limiter.rs:71-79 | with requests of at most one second's bytes, the bytes let through stay within the configured rate times the time |
| RateLimiter.BytesExceeded | src/engine/rate_limiter.rs:72-74 | any larger request breaks that bound one second after the start |
| RateLimiter.EveryRequestServed | src/engine/rate_limiter.rs:71-79 | a waiting request is served after a number of refill rounds fixed by what it and the requests before it lack, whatever else arrives |
| RateCharges.OneSecond | src/engine/rate_limiter.rs:24-24 | one second's permits are the whole kibibytes of the rate, at least one and at most 2^31 - 1 |
| RateCharges.ChargesAreFair | src/engine/rate_limiter.rs:71-79 | over every run, served requests together have paid less than one kibibyte each beyond the bytes they carried |
| RateCharges.ServedAtOnce | src/engine/rate_limiter.rs:71-79 | a request that the free permits cover is served at once and takes no more of them than its bytes rounded up |
| RateCharges.NobodyOvertakes | src/engine/rate_limiter.rs:71-79 | while a request waits, every later one that is not empty waits behind it |
| RateCharges.MintIsExact | src/engine/rate_limiter.rs:40-57 | over every run, permits minted, about to be added, carried over as a fraction and refused by a full bucket add up to the rate times the time |
| RateLimiter.Bucket.Wake | src/engine/rate_limiter.rs:43-55 | one refill round in place is the model's step |
| RateLimiter.Bucket.AddPermits | src/engine/rate_limiter.rs:55-57 | handing permits to the queue in order is the model's step |
| RateLimiter.Bucket.Acquire | src/engine/rate_limiter.rs:71-79 | a request is served or queued as in the model |
| Partition.ApplyShard | src/engine/mod.rs:1267-1302 | the loops keep exactly the items the packing gives to the worker, in listing order |
| Partition.Retain | src/engine/mod.rs:1296-1301 | the retain loop keeps the items of one owner, in order |
| Partition.EachItemOnce | src/engine/mod.rs:1284-1301 | every position belongs to exactly one worker, and each worker's items stand in listing order |
| Partition.StringLeIs | src/engine/mod.rs:1282-1282 | names are ordered by their first difference, a beginning before what it begins |
| Partition.WorkersShare | src/engine/mod.rs:1267-1302 | the workers' items together are the listing, each as often as listed |
| Partition.OrderDoesNotMatter | src/engine/mod.rs:1262-1282 | with distinct names, permuting the listing changes no worker's set |
| FileOwners.AgreeIff | crates/azcp-cluster/src/stages/owners.rs:11-16 | file owners and apply_shard agree on a listing for every number of workers, if and only if its entries of equal, positive size are in name order |
| FileOwners.ComputeAgrees | crates/azcp-cluster/src/stages/owners.rs:11-16 | such a listing gets the same owners from both for each number of workers |
| FileOwners.ComputeCanDiffer | crates/azcp-cluster/src/stages/owners.rs:11-16 | a listing out of name order on which they disagree |
| FileOwners.ItemsHandedOut | src/engine/mod.rs:1267-1295 | apply_shard hands items out largest first, equal ones by name and then as listed, each to the worker with the fewest bytes so far |
| FileOwners.WorkersNearBest | src/engine/mod.rs:1284-1295 | when the bytes fit in 64 bits no worker gets more than (4/3 - 1/(3m)) times the busiest worker of any other assignment |
| FileOwners.WorkersSpread | src/engine/mod.rs:1284-1295 | two workers never differ by more than the largest item |
| Sorting.SortStable | src/engine/mod.rs:1282-1282 | the sort keeps equal keys in their order |
| Filelist.SerializeList | crates/azcp-cluster/src/filelist.rs:5-21 | the loop writes the specified text |
| Filelist.DeserializeText | crates/azcp-cluster/src/filelist.rs:23-59 | the loop reads the specified entries |
| Filelist.RoundTrip | crates/azcp-cluster/src/filelist.rs:5-59 | entries come back unchanged if and only if every one is well formed |
| Filelist.NormalForm | crates/azcp-cluster/src/filelist.rs:5-59 | for every text, saving what was read and reading it again changes nothing |
| Filelist.ReadIsWellFormed | crates/azcp-cluster/src/filelist.rs:23-59 | whatever the text, the entries read are well formed |
| Filelist.LineMeans | crates/azcp-cluster/src/filelist.rs:23-59 | a line of a name, a number and a third field is an entry with that size; the third field without the spaces around it is its date, an empty one or a dash is none |
| Filelist.LineWithoutDate | crates/azcp-cluster/src/filelist.rs:23-59 | a line of a name and a number is an entry without a date |
| Filelist.NumberIs | crates/azcp-cluster/src/filelist.rs:40-44 | a size is read if and only if it is at least one digit, nothing else but one plus sign before it, and fits in 64 bits; then it is their value |
| Filelist.PlusAndZeros | crates/azcp-cluster/src/filelist.rs:40-44 | leading zeros and a plus sign do not change a size |
| Filelist.ReadShardlist | src/engine/mod.rs:1206-1260 | succeeds if and only if every kept line has a name and a size field, then agrees with deserialize; otherwise names the first bad line |
| Latency.LatencyStats.Record | src/storage/blob/client.rs:59-94 | after recording, the fields tell count, sum, extremes and buckets of all samples so far |
| Latency.SumIsSum | src/storage/blob/client.rs:59-62 | the recorded sum is that of the samples, whatever their order |
| Latency.ExtremesAre | src/storage/blob/client.rs:70-93 | the recorded extremes are samples, and no sample is outside them |
| Latency.LatencyStats.PercentileMs | src/storage/blob/client.rs:96-111 | the loop returns the specified value of the bucket counts |
| Latency.PercentileBrackets | src/storage/blob/client.rs:96-111 | at least pN of the N samples are strictly below the value returned, and fewer than pN below half of it |
| Latency.ExactIs | src/storage/blob/client.rs:102-102 | the exact percentile is a sample with fewer than pN samples below it and at least pN up to it |
| Latency.PercentileIsClose | src/storage/blob/client.rs:96-111 | the exact percentile lies between half the value returned and the value |
| Latency.BucketIs | src/storage/blob/client.rs:63-68 | which samples fall into the first i buckets |
| Latency.ExtremeIsTrue | src/storage/blob/client.rs:70-93 | however the compare-exchange loops interleave, they leave the true minimum or maximum |
| Sync.RelativeIs | src/cli/sync_cmd.rs:147-152 | a relative name is what follows the path, or the whole name if it does not start with the path, without all its leading slashes |
| Sync.TargetReadsBack | src/cli/sync_cmd.rs:146-151 | an uploaded name is listed under the path and reads back as its relative name if and only if the path has at most one trailing slash |
| Sync.PlanUploads | src/cli/sync_cmd.rs:296-323 | exactly the filtered files that need uploading, in whatever order the diff tasks finish |
| Sync.PlanDownloads | src/cli/sync_cmd.rs:419-462 | exactly the filtered blobs that need downloading |
| Sync.UploadPlanIs | src/cli/sync_cmd.rs:203-239 | which filtered files are not planned, per method: always none; by size the files listed with their own size; by time those whose listed date is also not before the file's whole second; by digest those listed with their own size and digest |
| Sync.DownloadPlanIs | src/cli/sync_cmd.rs:241-277 | which listed blobs are not planned, per method, by the local file's size, full date and digest |
| Sync.IndexListing | src/cli/sync_cmd.rs:139-172 | collecting the listing into a map keeps, for each relative name that passes the filter, the record of the last listed blob with that name |
| Sync.SecondUpload | src/cli/sync_cmd.rs:203-239 | for every store, path and order: a second sync plans exactly the files of the first whose upload the listing does not show or whose upload's record does not settle the comparison |
| Sync.CleanListing | src/cli/sync_cmd.rs:146-151 | below a path with at most one trailing slash no upload is hidden when every listed blob has the name an upload would give it |
| Sync.UploadConvergesBySize | src/cli/sync_cmd.rs:213-213 | comparing sizes, a second sync plans nothing if and only if the listing shows every upload of the first |
| Sync.ConvergenceIff | src/cli/sync_cmd.rs:203-239 | comparing sizes, the second sync plans nothing for every local side if and only if no name that passes the filter is hidden: at most one trailing slash, and no blob that reads the same listed behind its own |
| Sync.DirtyPathPlansTheSame | src/cli/sync_cmd.rs:288-292 | with two or more trailing slashes, whatever the store holds, uploads land outside the path and the second sync plans what the first did; everything, when nothing is listed |
| Sync.DoubleSlashUploadsAgain | src/cli/sync_cmd.rs:288-292 | below `//` the file `r` is uploaded as `/r` and planned again by the next sync |
| Sync.SiblingUploadsAgain | src/cli/sync_cmd.rs:139-172 | below `data`, with `data2/x` at the destination, the file `2/x` is uploaded by every sync |
| Sync.UploadConvergesByTime | src/cli/sync_cmd.rs:214-227 | comparing times, it plans nothing if and only if the listing shows every upload and no uploaded file is dated later than its upload, in whole seconds |
| Sync.UploadSizes | src/cli/sync_cmd.rs:279-368 | after a sync by any method, every filtered file that is not hidden is listed with its own size |
| Sync.UploadDigests | src/cli/sync_cmd.rs:228-238 | by digest, with a service that records the digests of the uploads, it is listed with its own size and digest |
| Sync.UploadTimes | src/cli/sync_cmd.rs:214-227 | by time, with uploads dated no earlier than their files, its record has a date that is not before the file's, in whole seconds |
| Sync.NoDigestNoSync | src/cli/sync_cmd.rs:171-201 | when the service records no digest for an upload that is listed and not empty, the next sync by digest is refused |
| Sync.SecondDownload | src/cli/sync_cmd.rs:419-462 | a second sync plans a blob exactly when it has no local name, or one that shares its file was planned and the file as it was left does not settle the comparison |
| Sync.DownloadConverges | src/cli/sync_cmd.rs:241-277 | comparing sizes or times, a second sync plans nothing if and only if every listed blob has a local name and fits the file left for it, in size and, at full precision, in time |
| Sync.DownloadConvergenceIff | src/cli/sync_cmd.rs:396-462 | comparing sizes, that is so for every local side if and only if every listed blob has a local name and blobs of different sizes never share one |
| Sync.DownloadSizes | src/cli/sync_cmd.rs:371-494 | after a sync by any method, the file of a blob that shares it with no other has the blob's size |
| Sync.DownloadDigests | src/cli/sync_cmd.rs:264-276 | by digest, when downloads arrive with their blobs' digests, the file has the blob's digest |
| Sync.DownloadTimes | src/cli/sync_cmd.rs:253-263 | by time, with downloads dated no earlier than their blobs, the file is not older than the blob |
| Sync.UploadMirrors | src/cli/sync_cmd.rs:330-355 | with delete-destination the filtered names at the destination are exactly the source's, if and only if the listing shows every upload and every listed blob without a local file has the name an upload would give it |
| Sync.NothingDeleted | src/cli/sync_cmd.rs:330-355 | without delete-destination every blob stays, and changes only to an uploaded file that goes by its name |
| Sync.UploadSparesOthers | src/cli/sync_cmd.rs:330-355 | below a path with at most one trailing slash, blobs outside the path or excluded by the filter are untouched, whatever the store holds |
| Sync.NothingRemoved | src/cli/sync_cmd.rs:475-494 | without delete-destination every local file stays, and changes only to a fetched blob that reads as its name |
| Sync.DownloadMirrors | src/cli/sync_cmd.rs:475-494 | with delete-destination the filtered local names are exactly those of the listed blobs that have one; excluded files are untouched |

## Left out

- Network, MPI, file system and thread calls: abstract steps. A range request returns exactly the bytes asked for (section 2.1 of RFC 7233).
- Error and abort paths of the broadcast stage: an error ends the run; what the other ranks then see is not modelled.
- PipelineProgress.Progress: says nothing for runs in which some rank already waits in the ack receive with nothing outstanding; StarvationIff, StarvedForever and CompletionIff cover those.
- PipelineDriver.Driver.FillSlots: the rank's environment stands still during one pass of the loop; between passes it may change as the world model allows.
- The writers' channels, MPI requests and the disks are modelled on values: aliasing between a buffer and MPI is expressed by the moments at which a payload may be taken or arrive.
- Raw allocation, alignment of memory and pointers: a buffer is a byte sequence of fixed length.
- A sync's transfers and deletions all succeed in the model. Deleting a name that is not there, which the listing of a sibling such as `data2/x` can ask for, fails the program's sync after its uploads; the model goes on.
- Local names that cannot exist side by side, such as `a` and `a/b`, and chunks of two downloads mixed in one local file.
- Whether the service records a digest for an upload is a parameter of sync; a single request and a block list may differ in that.
- Glob patterns: an arbitrary predicate on relative names.
- The counters of the latency statistics are unbounded; 2^64 requests are out of reach.
- `download_entries`, `upload_file` and `download_file`: the same two-semaphore pattern as the two operations modelled, with fewer choices.
- Direct mode of `download_ranges` (the cluster never sets it) and the md5 side task of uploads.
- The comparison with a saved list in the presence stage: each rank's findings are a parameter.
- Credentials, signing, retries, progress bars, summaries, argument parsing, list, make and remove commands: no effect on the properties above.
