# Verified models of the server's bookkeeping

The server keeps several structures in step by hand while players move, blocks change and jobs
finish on a thread pool. This project models that bookkeeping in Dafny and proves what it promises,
for every input, every run and every order of events that the model allows.

- **Chunk delivery** (`Delivery`, `ChunkIndex`, `ChunkSending`, `DeliveryServer`, `DeliveryProgress`,
  `SpawnEntry`, `SubRegions`, `ArrivalOrder`, `ChangeHistory`). A session's sets of sent and flushed chunks, its job queues and its deferred changes,
  and the server's reverse index from chunks to sessions. `Delivery` and `ChunkIndex` state the protocol
  on values, with its invariant and its runs; `ChunkSending` and `DeliveryServer` are the methods on
  objects, each proved to make exactly the step of that name. The client's side is computed from the
  packets in the stream, which carry what the protocol carries: the dimension the client is in, the chunks
  it has been announced and those it holds, and the block changes that it can read from the packed
  coordinates and from the regions it is sent, in the order in which they reach it. One history field
  (`told`) records what was broadcast. The invariant is that the two accounts hold the same changes, each
  as often, for each chunk held; `ArrivalOrder` says exactly when they also agree in order, and
  `ChangeHistory` that the history is what the steps of the run broadcast. `DeliveryProgress` bounds the
  jobs in flight and how long loading and the spawn gate take, `SpawnEntry` follows a player from the fields
  of its session until it is let in, and `SubRegions` treats the queue of background jobs.
- **Block changes and sub-regions** (`BlockChanges`, `ChunkLayout`). Deduplication, coordinate
  packing, the box that is re-sent, and the buffer that carries it.
- **Entities** (`EntityIndex`, `EntityManaging`, `Riding`, `RideDeaths`). The bucket index beside the
  master list, the box query, saving a column, the sweep of dead entities, and ticking along ride
  chains.
- **Entity tracker** (`Visibility`, `EntityTracking`, `MovementStream`, `TrackedViews`). Who is shown
  which entity, over runs in which entities move and die and players come and go; the delta-encoded
  movement that viewers replay; and the two together, from a player's place in the lists to what its
  client believes.
- **Thread pool** (`LoopBlocks`, `ThreadPool`, `ThreadPoolProgress`). A state machine over the locked
  queue, the workers and the threads in `wait()`, with any number of each and every interleaving.
- **Portals** (`PortalSearch`, `PortalCreation`, `PortalArrival`). The chunk-clipped search against a plain
  scan, the choice of a building site, the blocks of a new doorway, and where in it an entity ends up.
- **Recipes** (`RecipeKeys`, `RecipeMirror`, `ShapelessKeys`, `Recipes`). Canonical keys and lookup.
- **Commands** (`CommandTree`, `CommandExecution`, `CommandSuggestions`, `CommandOffers`, `CommandLines`).
  What `execute` makes of a line, and who may run it; which suggestions are made, exactly, and that they
  agree with `execute`.

`Sequences` holds shared vocabulary. `dafny verify dfyconfig.toml` checks everything.

## What the code does that its comments do not say

Each of these is a lemma that names the case, next to the exact condition under which the promise
holds.

- Adding a batch of tasks to a queue that is not empty notifies nobody, so workers can sleep beside
  queued work. That never happens if and only if there is no second worker or no such batch is added
  (`NeverIdlesExactly`). No task is forgotten either way (`QuiescentMeansFinished`).
- Two threads in `wait()` can leave one of them blocked for good
  (`NobodyStrandedExactlyForOneWaiter`).
- A sub-region job made without a chunk reference stops that session's sub-region queue until the
  session changes dimension or leaves, and exactly until then (`WedgedUntilReset`); a drain empties the
  queue exactly when no job is like that (`DrainEmptiesExactlyWithChunks`). A short run reaches such a
  state (`WedgeIsReachable`), given that the world can drop a chunk that a client holds.
- A sub-region can be sent after its chunk was unloaded (`RegionMayFollowUnload`). A turn is free of
  that if and only if every job it drains was queued for a chunk that is then at the client
  (`VisitRegionsHeld`), and a run is free of it as long as no turn unloads a chunk with a job queued
  (`RegionsHeldWhileJobsStayInView`).
- A batch of ten or more changes goes through that queue while a smaller batch is written at once, so a
  later small batch can overtake an earlier large one (`ArrivalOrder.SmallBatchOvertakes`). A broadcast
  keeps the order of a chunk's changes if and only if the batch is large, or it makes no difference
  whether it goes before or after what this stay of the chunk still has queued
  (`DeliverKeepsOrderExactly`); for a batch of changes that are not among those queued, that means
  nothing is queued (`NewChangesCommuteExactly`). Every other step keeps the order, so a run is in order
  throughout if and only if none of its broadcasts breaks that rule (`OrderKeptExactly`). A caller keeps
  it by sending small batches only for chunks with nothing queued (`OrderKeptByWaiting`). That the
  changes all arrive, once each, holds in any case.
- The sweep of dead entities removes by id and takes the first match, so it leaves a dead entity
  behind exactly when a live one with the same id comes earlier (`SweepFailsExactlyOnLiveTwins`).
- A rider that survives the death of its vehicle during a tick ticks twice when it stands after the
  root of its chain in the master list (`OnceExactlyWithoutLateSurvivors`).
- Tracking an id that is tracked already forgets who was listed for it. That is harmless exactly when no
  client is shown the id (`TrackKeepsInvExactly`, `AddKeepsInvExactly`). Untracking a player that still
  has a session leaves its client with what it is shown (`ForgetIsQuietExactly`); the callers remove a
  dying player first, and then no run spawns anything twice (`EveryRunIsGood`).
- Mounting gives the vehicle the entity found under the rider's id. If that is a twin, the two ends do
  not agree afterwards (`MountEntity`).
- The search for a portal site goes through up to four facings but can only ever choose the first
  (`FindPortalSite`): a blocked facing ends the turn, and an equal distance never wins.
- Mounting can close a ride cycle, on which nothing ticks any more, exactly when the vehicle rides on
  the mounting entity (`MountClosesCycle`).
- Metadata left in an empty crafting cell that is enclosed by items makes a recipe miss
  (`StrayMetadataSplitsKeys`); translates get one key exactly when that metadata agrees
  (`TranslatesHaveOneKeyExactly`).

## Model

| member | source | states |
|---|---|---|
| Delivery.EnqueueKeepsInv | src/bpp_server/chunk_io/chunk_sender.h:55-137 | whatever order candidates and unloads come in, enqueueing keeps `sent` the disjoint union of `flushed` and the duplicate-free queue, deferred changes on queued chunks only, the client's chunks equal to `flushed`, and every change carried, queued or deferred exactly once |
| Delivery.FlushKeepsInv | src/bpp_server/chunk_io/chunk_sender.h:190-264 | whichever futures are ready and whichever chunks still exist, flushing keeps the same invariant: each flushed chunk is announced once and its data sent once, after the announcement, and the changes that were deferred for it move into one job |
| Delivery.DeferKeepsInv | src/bpp_server/chunk_io/chunk_broadcaster.cpp:41-58 | deferring a batch to a session that was sent the chunk but has not got it keeps the invariant, deferred changes included |
| Delivery.DeliverKeepsInv | src/bpp_server/chunk_io/chunk_broadcaster.cpp:60-101 | writing or submitting a batch for a session that has the chunk keeps the invariant: since the chunk's announcement, what the client reads from packets and what the regions of queued jobs show is exactly the changes broadcast, each as often |
| Delivery.PacketWrites | src/bpp_server/chunk_io/chunk_broadcaster.cpp:65-95 | a client reads from the packet for one change, or from the packed coordinates of several, the changes of the batch, in order, for that chunk and no other |
| Delivery.JobShowsAll | src/bpp_server/chunk_io/chunk_sender.h:144-184 | a client that puts the serialised box where the header says shows every change that the job was made for, as the chunk has it; the box is readable: inside the chunk and of even height |
| Delivery.DrainKeepsInv | src/bpp_server/chunk_io/chunk_sender.h:250-262 | draining the job queue keeps the invariant: changes pass from jobs to packets and none is lost |
| Delivery.ChangeDimensionKeepsInv | src/bpp_server/server.cpp:119-168 | changing the dimension keeps the invariant and leaves nothing sent, queued, deferred or listed; the client holds nothing and the session waits for chunks again |
| Delivery.VisitExplainsLists | src/bpp_server/chunk_io/chunk_sender.h:55-264 | after enqueue and flush the two change lists say exactly how `flushed` changed and do not overlap; the unload list is all sent chunks out of range, in flight or not |
| ChunkIndex.StepKeepsInv | src/bpp_server/server.cpp:737-799 | every server step (join, activate, visit, dimension change, broadcast, disconnect) keeps all sessions' invariants and the reverse index equal to the sets it mirrors |
| ChunkIndex.EveryRunAgrees | src/bpp_server/server.cpp:737-799 | in every reachable state the index lists, for each chunk and dimension, exactly the sessions of that dimension that hold the chunk, once each, with no empty entry |
| ChunkIndex.DisconnectKeepsInv | src/bpp_server/server.cpp:1166-1211 | after disconnecting, no removed session is left in the index or the session map, and everybody else is untouched |
| ChunkIndex.FanoutReachesExactlyHolders | src/bpp_server/chunk_io/chunk_broadcaster.cpp:31-101 | a batch reaches every session of the dimension that has or was sent the chunk exactly once, now if it was flushed and deferred otherwise, and nobody else |
| ChunkIndex.BroadcastIsReceived | src/bpp_server/chunk_io/chunk_broadcaster.cpp:31-101 | the broadcast step does to each session just what it should receive |
| ChunkIndex.StepOnSession | src/bpp_server/server.cpp:772-799 | what a step makes of a session depends on that session alone, and only a disconnect of it removes it |
| ChunkSending.ChunkSender.Enqueue | src/bpp_server/chunk_io/chunk_sender.h:55-137 | the method makes exactly an Enqueue step of the protocol, for a candidate order sorted by distance |
| ChunkSending.ChunkSender.Flush | src/bpp_server/chunk_io/chunk_sender.h:190-264 | the method makes exactly a Flush step |
| ChunkSending.ChunkSender.SendBlockUpdates | src/bpp_server/chunk_io/chunk_sender.h:139-185 | the session's sub-region queue gains one job for the box of the changes, which can become ready only if there is a chunk; nothing else changes |
| ChunkSending.ChunkSender.Turn | src/bpp_server/player_conn/server_pconnstate_manager.cpp:29-36 | enqueue and flush in a session's turn are the protocol's two steps in that order |
| ChunkSending.ChunkSender.Remove | src/bpp_server/chunk_io/chunk_sender.h:267-270 | a removed session has no job in either flight map and the others keep theirs |
| ChunkSending.SortByDistance | src/bpp_server/chunk_io/chunk_sender.h:80-85 | the candidates come back without duplicates, the same ones, nearest first |
| DeliveryServer.Server.IndexAddChunk | src/bpp_server/server.cpp:170-177 | the session is added to the chunk's entry unless it is there already |
| DeliveryServer.Server.IndexRemoveChunk | src/bpp_server/server.cpp:179-187 | the session leaves the chunk's entry, and an emptied entry goes |
| DeliveryServer.Server.IndexRemoveSession | src/bpp_server/server.cpp:189-192 | the session leaves the entries of all chunks it holds |
| DeliveryServer.Server.DrainIndexUpdates | src/bpp_server/server.cpp:793-799 | draining the two lists brings the index up to date with the session and empties them |
| DeliveryServer.Server.VisitSession | src/bpp_server/server.cpp:772-799 | a visit makes exactly the Visit step on the whole world, with the batch size and view radius of the session's state |
| DeliveryServer.Server.WaitForSpawnChunks | src/bpp_server/player_conn/server_pconnstate_manager.cpp:297-371 | a waiting session is served, put at its portal once the area is ready, and let in exactly when the gate of the protocol is open; what that makes of the session's place and flags is stated in full |
| DeliveryServer.SpawnGate | src/bpp_server/player_conn/server_pconnstate_manager.cpp:317-340 | the count passes if and only if every chunk within three of the player is flushed; its modulus is never zero, as the view radius is at least 3 |
| DeliveryServer.Server.FinishLogin | src/bpp_server/player_conn/server_pconnstate_manager.cpp:178-252 | the method makes exactly the Activate step |
| DeliveryServer.Server.ResetDimensionState | src/bpp_server/server.cpp:119-130 | the session leaves the index, and its sets, lists, jobs and deferred changes go; the other sessions keep theirs |
| DeliveryServer.Server.SendPlayerToDimension | src/bpp_server/server.cpp:132-168 | nothing happens if the player is there already; otherwise the method makes exactly the Move step, and the player arrives at the destination given, or at its entity's place scaled by eight, where a portal is still to be looked for |
| DeliveryServer.Server.BroadcastBlockChanges | src/bpp_server/chunk_io/chunk_broadcaster.cpp:31-101 | the method makes exactly the Broadcast step for a deduplicated list of the changes |
| DeliveryServer.Server.DisconnectClients | src/bpp_server/server.cpp:1187-1211 | the method makes exactly the Disconnect step |
| DeliveryProgress.RoundLoads | src/bpp_server/chunk_io/chunk_sender.h:55-264 | from any state and for any batch size, after a round the client lacks exactly those of the missing chunks not in flight for which there was no room beside the jobs in flight |
| DeliveryProgress.LoadingIsBounded | src/bpp_server/chunk_io/chunk_sender.h:112-136 | from any state: n missing chunks are all there after n divided by the batch size, rounded up, rounds, one more if the world dropped chunks with a job in flight, or one round if the batch is unlimited; exact when nothing is in flight at the start |
| DeliveryProgress.NearestFirst | src/bpp_server/chunk_io/chunk_sender.h:80-136 | no candidate left out of a batch is nearer than one taken |
| DeliveryProgress.JobsInFlightAreBounded | src/bpp_server/chunk_io/chunk_sender.h:112-136 | in every run of the server whose turns ask for batches of 1 to n, no session ever has more than n chunk jobs in flight, whatever is cancelled, moved or unloaded in between |
| DeliveryProgress.GateLetsInExactly | src/bpp_server/player_conn/server_pconnstate_manager.cpp:297-371 | a turn lets a waiting player in if and only if the client then holds every chunk of the square around the player and no portal area is outstanding |
| DeliveryProgress.PlayersEnterThroughTheGate | src/bpp_server/player_conn/server_pconnstate_manager.cpp:317-370 | in every run a session starts to play only in its own turn, out of the waiting state, with all chunks of the square at the client |
| SpawnEntry.TurnIsAroundThePlayer | src/bpp_server/chunk_io/chunk_sender.h:55-63 | a turn is centred on the chunk that contains the player, asks for 16 jobs in play, for the setting while waiting, and for four if that is negative |
| SpawnEntry.TurnCoversTheGate | src/bpp_server/player_conn/server_pconnstate_manager.cpp:300-302 | a waiting player without an outstanding portal is served around the chunk at which the gate looks, at least as far as the gate looks: three chunks, or all in view after a portal |
| SpawnEntry.TurnServesThePortalArea | src/bpp_server/player_conn/server_pconnstate_manager.cpp:300-315 | with a portal outstanding it is served nine chunks, or all in view if that is less, and the gate waits for the area and then looks around the portal |
| SpawnEntry.PlayingTurnServesTheView | src/bpp_server/chunk_io/chunk_sender.h:61-63 | a player in the world is served all in view, or less under a view override |
| SpawnEntry.PlaceAfterTurn | src/bpp_server/player_conn/server_pconnstate_manager.cpp:306-359 | a portal is outstanding after a turn if and only if it was and its area is not ready; otherwise the player stands in it, and whoever is let in has no view override left |
| SpawnEntry.PlayerEnters | src/bpp_server/player_conn/server_pconnstate_manager.cpp:297-371 | whatever the settings, a player that waits without an outstanding portal in a world generated three chunks around it is playing after as many turns of the server as the missing chunks fill batches, and one more if the world dropped chunks with a job in flight |
| SubRegions.JobsStayInOrder | src/bpp_server/chunk_io/chunk_sender.h:250-262 | until a session is reset, regions are written in the order in which their jobs were made, each at most once, and no job is dropped |
| SubRegions.DrainEmptiesExactlyWithChunks | src/bpp_server/chunk_io/chunk_sender.h:250-262 | with all futures finished, the sub-region queue empties if and only if every job has its chunk |
| SubRegions.WedgedUntilReset | src/bpp_server/chunk_io/chunk_sender.h:178-184 | in every run, a job without a chunk reference at the head stays there with all behind it, and no region is written, up to the step that moves or removes the session and exactly until then |
| SubRegions.WedgeIsReachable | src/bpp_server/chunk_io/chunk_broadcaster.cpp:69-101 | a run of four steps from the empty server reaches such a state when the world has dropped the chunk |
| SubRegions.VisitRegionsHeld | src/bpp_server/chunk_io/chunk_sender.h:190-264 | the regions a turn writes all go to chunks held if and only if each drained job that was queued before is for a chunk that is held and in view, or in flight and done |
| SubRegions.UnloadingIsTheOnlyWay | src/bpp_server/chunk_io/chunk_sender.h:87-106 | from a state whose jobs are all for chunks held, a turn goes wrong if and only if it drains a job whose chunk it has just unloaded |
| SubRegions.RegionsHeldExactly | src/bpp_server/chunk_io/chunk_sender.h:250-262 | in every run, all regions ever written go to chunks held if and only if every turn meets that condition |
| SubRegions.RegionsHeldWhileJobsStayInView | src/bpp_server/chunk_io/chunk_sender.h:87-106 | in every run in which no turn unloads a chunk with a job queued, every region goes to a chunk held |
| SubRegions.RegionMayFollowUnload | src/bpp_server/chunk_io/chunk_sender.h:87-106 | a run of five steps from the empty server in which a region is written after the unload of its chunk |
| ArrivalOrder.DeliverKeepsOrderExactly | src/bpp_server/chunk_io/chunk_broadcaster.cpp:60-101 | for a client that has had the changes of each chunk in the order of broadcasting, delivering one more batch keeps that order if and only if the batch is of ten or more, or swapping it with the changes queued for that stay of the chunk makes no difference |
| ArrivalOrder.NewChangesCommuteExactly | src/bpp_server/chunk_io/chunk_broadcaster.cpp:60-101 | a batch of changes none of which is queued may be swapped with the queued ones only if one of the two is empty |
| ArrivalOrder.DeferKeepsOrder | src/bpp_server/chunk_io/chunk_broadcaster.cpp:41-58 | deferring a batch for a chunk in flight disturbs the order of no chunk that is held |
| ArrivalOrder.EnqueueKeepsOrder | src/bpp_server/chunk_io/chunk_sender.h:55-137 | enqueueing, which unloads chunks and so ends their stays, keeps the order for the chunks still held |
| ArrivalOrder.FlushChunksKeepsOrder | src/bpp_server/chunk_io/chunk_sender.h:190-248 | announcing chunks and handing over their deferred changes keeps the order: the deferred changes of a new stay come in the order in which they were deferred |
| ArrivalOrder.DrainKeepsOrder | src/bpp_server/chunk_io/chunk_sender.h:250-262 | draining the job queue keeps the order |
| ArrivalOrder.VisitKeepsArrivalOrder | src/bpp_server/server.cpp:772-799 | a session's whole turn keeps the order |
| ArrivalOrder.StepInOrder | src/bpp_server/server.cpp:737-799 | a server step keeps the order at all sessions if and only if it is not a broadcast of one to nine changes that some holder of the chunk gets ahead of different changes queued for it |
| ArrivalOrder.OrderKeptExactly | src/bpp_server/chunk_io/chunk_broadcaster.cpp:31-101 | every state of a run up to any moment has all sessions in order if and only if no step before was such a broadcast |
| ArrivalOrder.OrderKeptByWaiting | src/bpp_server/chunk_io/chunk_broadcaster.cpp:31-101 | a run is in order if small batches go out only for chunks with nothing queued at any holder, and, where batches bring changes that are not queued already, only then |
| ArrivalOrder.SmallBatchOvertakes | src/bpp_server/chunk_io/chunk_broadcaster.cpp:69-101 | a run in which ten changes and then one more are broadcast for a chunk ends with the one ahead of the ten |
| ChangeHistory.ToldIsBroadcast | src/bpp_server/chunk_io/chunk_broadcaster.cpp:31-101 | in every run, the history kept for a chunk that a session has been sent since some step is what the steps since then have broadcast for that chunk and dimension, in order |
| ChangeHistory.HoldersGetTheBroadcasts | src/bpp_server/chunk_io/chunk_broadcaster.cpp:31-101 | in every run, a client that holds a chunk gets through packets and jobs exactly the changes broadcast since the chunk was sent, each as often, and in order if no batch overtook another; while the chunk is on its way they are all deferred, in order |
| BlockChanges.Dedupe | src/bpp_server/chunk_io/chunk_broadcaster.cpp:16-29 | one entry per position, with the last write to it |
| BlockChanges.DedupePreservesMeaning | src/bpp_server/chunk_io/chunk_broadcaster.cpp:16-29 | applying the unique list to any chunk gives what the original list gives |
| BlockChanges.KeyIsInjective | src/bpp_server/chunk_io/chunk_broadcaster.cpp:16-29 | the key tells local positions apart |
| BlockChanges.MultiBlockRoundTrip | src/bpp_server/chunk_io/chunk_broadcaster.cpp:81-90 | the 16-bit packing, read as a signed number, decodes to the same x, y and z |
| BlockChanges.BoundingBox | src/bpp_server/chunk_io/chunk_sender.h:144-176 | the loop finds the tight box, made even in height |
| BlockChanges.BoxIsFaithful | src/bpp_server/chunk_io/chunk_sender.h:144-182 | the box holds every change, stays in the chunk and is even in height |
| ChunkLayout.Serialize | src/bpp_server/chunk_io/chunk_serializer.h:16-70 | a decoder that goes x, z, y innermost reads back each block's id, metadata and both lights, for any region, even or odd |
| ChunkLayout.BufferExactly | src/bpp_server/chunk_io/chunk_serializer.h:17-84 | the same byte by byte: where the id, the metadata and the two lights of a block stand in the buffer, which half of a byte holds them, and where the chunk keeps them |
| ChunkLayout.LocalIndexIsInjective | src/bpp_shared/world/subchunk.h:34-36 | within a sub-chunk the index is in range and tells blocks apart |
| ChunkLayout.EvenColumnsShareNoByte | src/bpp_server/chunk_io/chunk_serializer.h:30-70 | with an even height no nibble byte belongs to two columns |
| ChunkLayout.OddColumnsShareAByte | src/bpp_server/chunk_io/chunk_serializer.h:30-70 | with an odd height neighbouring columns do share a byte |
| ChunkLayout.SubRegionIsFaithful | src/bpp_server/chunk_io/chunk_sender.h:144-182 | the region sent for a list of changes holds each of them, starts every column on a byte boundary and fits its header |
| EntityIndex.QueryVisitsBucket | src/bpp_shared/entities/entity_manager.cpp:262-282 | an entity whose collider meets the box sits in a bucket the query visits, in spite of rounding and of the clamp |
| EntityIndex.QueryReachesExactlyTwoBlocks | src/bpp_shared/entities/entity_manager.cpp:262-282 | queries miss nothing if and only if no collider reaches more than two blocks from its entity |
| EntityIndex.BucketExactly | src/bpp_shared/entities/entity_manager.cpp:123-149 | the bucket of a position is the cube of 16 blocks that contains it, or the lowest or highest of its column |
| EntityIndex.IntersectsExactly | src/bpp_shared/helpers/aabb.h:54-57 | two boxes intersect if and only if some point lies strictly inside both |
| EntityIndex.InsertSpec | src/bpp_shared/entities/entity_manager.cpp:95-100 | appending to a bucket adds that entity to that bucket only, and to the collider list if it is solid |
| EntityIndex.EraseSpec | src/bpp_shared/entities/entity_manager.cpp:46-61 | erasing and pruning removes that entity from that bucket only and leaves no empty column |
| EntityIndex.SweepFailsExactlyOnLiveTwins | src/bpp_shared/entities/entity_manager.cpp:185-191 | the sweep ends, and leaves a dead entity behind if and only if a live one of the same id comes before a dead one |
| EntityManaging.MoveAgrees | src/bpp_shared/entities/entity_manager.cpp:123-149 | changing buckets keeps each live entity in the one bucket recorded for it and nowhere else |
| EntityManaging.DropColumnAgrees | src/bpp_shared/entities/entity_manager.cpp:448-451 | erasing a column keeps the index right if and only if nothing that must be indexed is in it |
| EntityManaging.EntityManager.AddEntity | src/bpp_shared/entities/entity_manager.cpp:79-111 | the entity joins the list and the bucket of its position, with a fresh or forced id; the index still agrees, and so do the links if the entity is loose |
| EntityManaging.EntityManager.RemoveEntity | src/bpp_shared/entities/entity_manager.cpp:31-77 | the first entity with the id leaves list and index and is dead; nobody else changes, and the links of the living still agree |
| EntityManaging.EntityManager.UpdateBucket | src/bpp_shared/entities/entity_manager.cpp:123-149 | the entity ends in the bucket of its present position and the index still agrees |
| EntityManaging.EntityManager.GetEntitiesWithinAabb | src/bpp_shared/entities/entity_manager.cpp:262-299 | with current buckets and colliders within two blocks, exactly the indexed entities whose collider meets the box, each once |
| EntityManaging.EntityManager.CollectEntitiesForSave | src/bpp_shared/entities/entity_manager.cpp:421-455 | collects each live non-player of the column once; clearing kills them and keeps the index right if and only if no live player is there |
| EntityManaging.EntityManager.SweepDead | src/bpp_shared/entities/entity_manager.cpp:185-191 | does what EntityIndex.Sweep says; with distinct ids exactly the live entities stay |
| EntityManaging.EntityManager.TickEntityAndPassenger | src/bpp_shared/entities/entity_manager.cpp:113-160 | ends, visits the entity and then its riders down the chain as it was when the walk began, also past entities that die in their own tick, and puts each in its current bucket; the rides left are those between the survivors |
| EntityManaging.EntityManager.Tick | src/bpp_shared/entities/entity_manager.cpp:162-201 | whoever dies in its own tick: nothing on a ride cycle ticks, each other live entity ticks exactly once if and only if there is no late survivor, everything ticked is in its current bucket; then the dead are swept, and with distinct ids exactly the survivors are left; index and links agree again |
| EntityManaging.EntityManager.MountEntity | src/bpp_shared/entities/entity.cpp:201-221 | the rides afterwards are the old ones without the rider's and without the vehicle's old rider, plus the new one, also when an entity mounts itself; the rider has left its old vehicle on top of it; both ends agree if and only if nobody boards or the rider is the first with its id |
| EntityManaging.EntityManager.UnmountEntity | src/bpp_shared/entities/entity.cpp:223-233 | only that rider's ride ends, both ends agree, and the rider stands on top of its vehicle |
| Riding.RootedOrOnCycle | src/bpp_shared/entities/entity_manager.cpp:173-183 | among finitely many entities, climbing from vehicle to vehicle ends if and only if one did not start on a cycle |
| Riding.TrailsDoNotRevisit | src/bpp_shared/entities/entity_manager.cpp:151-159 | a walk down from a root never comes back to where it was, so the recursion ends |
| Riding.EachRiderOnce | src/bpp_shared/entities/entity_manager.cpp:162-184 | whatever the order of the snapshot, an entity is visited once if it is not on a cycle and never if it is |
| Riding.MountClosesCycle | src/bpp_shared/entities/entity.cpp:201-221 | mounting closes a cycle if and only if the vehicle rides, directly or not, on the rider or is the rider |
| RideDeaths.OnceExactlyWithoutLateSurvivors | src/bpp_shared/entities/entity_manager.cpp:151-184 | when entities die in their own tick, all off a cycle tick exactly once if and only if no rider outlives its vehicle while standing after its chain's root |
| RideDeaths.CyclesNeverTick | src/bpp_shared/entities/entity_manager.cpp:170-183 | whoever dies in its own tick, nothing on a ride cycle ticks |
| RideDeaths.NoDeathsNoDifference | src/bpp_shared/entities/entity_manager.cpp:162-183 | without deaths the tick is the plain walk over the chains |
| EntityTracking.EntityTracker.Tick | src/bpp_server/trackers/entity_tracker.cpp:32-98 | afterwards only the living are tracked, and a player sees an entity that can be shown to it exactly when it is within range; lists and clients agree |
| EntityTracking.EntityTracker.TrackEntity | src/bpp_server/trackers/entity_tracker.cpp:100-132 | whether or not the id is tracked already, it gets a fresh entry, and exactly the players in range are listed and, with a session and a packet for the type, told once; for an untracked id that is a run of legal steps |
| EntityTracking.EntityTracker.AddPlayer | src/bpp_server/trackers/entity_tracker.cpp:148-190 | whether or not the id is tracked already, the player meets each tracked entity once, in some order, and is then shown to the players in range; for an untracked id that is a run of legal steps |
| EntityTracking.EntityTracker.UntrackEntity | src/bpp_server/trackers/entity_tracker.cpp:134-146 | every viewer is told and no list mentions the entity |
| EntityTracking.EntityTracker.RemovePlayer | src/bpp_server/trackers/entity_tracker.cpp:192-206 | the player's client shows nothing any more and no list mentions the player |
| Visibility.InSightExactly | src/bpp_server/trackers/entity_tracker.cpp:25-29 | a player has another entity in sight if and only if their distance in x and z is at most the entity's range |
| Visibility.ShowKeepsInv | src/bpp_server/trackers/entity_tracker.cpp:208-529 | spawning an entity for a player that does not list it keeps list and client in agreement, with no double spawn |
| Visibility.HideKeepsInv | src/bpp_server/trackers/entity_tracker.cpp:53-78 | hiding keeps list and client in agreement |
| Visibility.UntrackKeepsInv | src/bpp_server/trackers/entity_tracker.cpp:134-146 | dropping an entity that nobody sees any more keeps the invariant |
| Visibility.TrackKeepsInvExactly | src/bpp_server/trackers/entity_tracker.cpp:100-132 | tracking an id keeps lists and clients in agreement if and only if no client with a session is shown that id already |
| Visibility.AddKeepsInvExactly | src/bpp_server/trackers/entity_tracker.cpp:148-190 | adding a player keeps them in agreement if and only if no client is shown its id and, should it be registered already, its own client is shown nothing that it meets |
| Visibility.ForgetIsQuietExactly | src/bpp_server/trackers/entity_tracker.cpp:32-50 | untracking a player without telling its client leaves that client empty if and only if it was shown nothing or there is no session |
| Visibility.StepKeepsGood | src/bpp_server/trackers/entity_tracker.cpp:32-206 | connecting, disconnecting, moving, dying, tracking, showing, hiding, untracking and leaving each keep every client equal to the lists, with no double spawn, provided a dying player is removed first |
| Visibility.EveryRunIsGood | src/bpp_server/entities/entity_mp_player.cpp:426-441 | in every state of every run each client holds exactly the entities that list it, nothing was spawned twice, and a session that is not registered holds nothing |
| MovementStream.TrackedEntry.Update | src/bpp_server/trackers/entity_tracker.cpp:700-831 | an update changes the encoder and sends what the encoding step says |
| MovementStream.PacketSentExactly | src/bpp_server/trackers/entity_tracker.cpp:730-831 | which packet an update sends, if any, and what is in it, for a pose given in 1/32 of a block and 1/256 of a turn: between two movement updates nothing, every 400 updates and for steps that do not fit a byte a teleport, otherwise what has moved more than 2 units or turned more than the threshold |
| MovementStream.SpawnShowsThePose | src/bpp_server/trackers/entity_tracker.cpp:208-529 | a client that is shown an entity starts with its pose |
| MovementStream.StepKeepsOffset | src/bpp_server/trackers/entity_tracker.cpp:730-831 | no update other than a teleport changes a viewer's offset from the reference, and every relative delta fits a signed byte without loss |
| MovementStream.MovementUpdateIsAccurate | src/bpp_server/trackers/entity_tracker.cpp:730-831 | after a movement update the reference shows the true pose: each coordinate to 2/32 of a block on one side and 3/32 on the other, yaw and pitch to 8/256 of a turn and the rounding, or the rounding alone, full turns aside |
| MovementStream.RunKeepsOffset | src/bpp_server/trackers/entity_tracker.cpp:730-831 | over any run the offset is constant until the first teleport and zero after it |
| MovementStream.StreamSelfStabilises | src/bpp_server/trackers/entity_tracker.cpp:730-831 | after 400 updates every viewer holds the reference, whenever and wherever it joined |
| MovementStream.MovementUpdatesRecur | src/bpp_server/trackers/entity_tracker.cpp:700-735 | movement is looked at in every stretch of `updateFrequency` updates |
| MovementStream.ViewersTrackTheEntity | src/bpp_server/trackers/entity_tracker.cpp:700-831 | after 400 updates, every such stretch has an update after which all viewers show the true pose in that sense |
| TrackedViews.PacketsGoToHolders | src/bpp_server/trackers/entity_tracker.cpp:542-552 | at every moment of a run of the tracker the players that an entity's packets go to are, among those with a session, exactly those whose clients hold the entity |
| TrackedViews.CopyIsReplay | src/bpp_server/trackers/entity_tracker.cpp:700-831 | while a player stays listed, its copy is the one it had, with the packets of the updates since replayed, whatever the tracker does about others in between |
| TrackedViews.ListedPlayersTrackTheEntity | src/bpp_server/trackers/entity_tracker.cpp:80-98 | a player that the tracker keeps listed through 400 updates shows the entity's true pose in that sense at some moment of each later stretch of `updateFrequency` updates, wherever it saw the entity spawn |
| LoopBlocks.BlocksPartition | include/BS_thread_pool.hpp:562-606 | the blocks are non-empty, follow one another, cover the range and differ in size by at most one |
| LoopBlocks.LoopTasksCoverOnce | include/BS_thread_pool.hpp:660-669 | the tasks of a loop call the body for each index of the range exactly once and for no other |
| LoopBlocks.EnqueueLoop | include/BS_thread_pool.hpp:2078-2095 | the loop builds exactly those tasks, in order |
| ThreadPool.StepKeepsInv | include/BS_thread_pool.hpp:2166-2206 | every step of a worker, a waiter or a submitter keeps `tasks_running` equal to the number of workers starting, running or not yet re-locked, and every submitted task in exactly one place |
| ThreadPool.StepKeepsWaiterInv | include/BS_thread_pool.hpp:1873-1889 | with one waiter, nobody blocks in `wait()` un-notified once the queue is empty and nothing runs |
| ThreadPool.EveryRunIsSafe | include/BS_thread_pool.hpp:1478-1497 | in every reachable state tasks start in the order they were submitted, each once, and the queue is what is left |
| ThreadPoolProgress.WaitReturnsOnlyWhenAllFinished | include/BS_thread_pool.hpp:1873-1889 | when `wait()` returns, everything submitted before the call has finished |
| ThreadPoolProgress.DetachLoopThenWait | include/BS_thread_pool.hpp:1558-1567 | after a detached loop and a returned `wait()`, the body has run exactly once for each index |
| ThreadPoolProgress.InternalRunsAreBounded | include/BS_thread_pool.hpp:2166-2206 | left alone, the pool stops within a measure of its own steps, in whatever order they come |
| ThreadPoolProgress.QuiescentMeansFinished | include/BS_thread_pool.hpp:2166-2206 | when it stops, the queue is empty, all submitted work has finished and a single waiter is not left blocked |
| ThreadPoolProgress.NoIdlingWithoutBacklogBulks | include/BS_thread_pool.hpp:1478-1497 | without batches onto a backlog, queued work always has a worker awake or a notification owed to a sleeper |
| ThreadPoolProgress.BulkOntoBacklogLeavesSleepers | include/BS_thread_pool.hpp:1478-1497 | with two workers or more, a reachable state in which a batch onto a backlog leaves a worker asleep beside queued work with nothing on its way to it |
| ThreadPoolProgress.NeverIdlesExactly | include/BS_thread_pool.hpp:1478-1497 | for any number of workers and waiters, no reachable state is like that if and only if there is at most one worker or no batch goes onto a backlog |
| ThreadPoolProgress.AlwaysCoveredExactly | include/BS_thread_pool.hpp:1478-1497 | with two workers or more, every reachable state has an awake worker or a notification for each queued task while anybody sleeps if and only if no batch goes onto a backlog |
| ThreadPoolProgress.NobodyStrandedExactlyForOneWaiter | include/BS_thread_pool.hpp:1873-1889 | a stopped pool leaves nobody blocked in `wait()` if and only if at most one thread may wait |
| PortalSearch.FindExisting | src/bpp_shared/teleporter.cpp:100-148 | the chunk-clipped search finds the first candidate by distance, x, z and highest y, and so what the plain scan finds, or nothing when there is none |
| PortalSearch.FlatScanAgrees | src/bpp_shared/teleporter.cpp:100-148 | any search that keeps the first of all candidates in that order finds what a plain ascending scan with a strict comparison finds |
| PortalSearch.ChunksCoverSquare | src/bpp_shared/teleporter.cpp:110-122 | the clipped chunks make up the search square |
| PortalCreation.HasRoomForPortal | src/bpp_shared/teleporter.cpp:32-48 | true exactly when the floor of the doorway is solid and its inside is air, for all depths |
| PortalCreation.FindPortalSite | src/bpp_shared/teleporter.cpp:50-90 | the nearest roomy pocket floor for the first facing alone, ties in scan order; without one the caller's position and facing stay |
| PortalCreation.WorldManager.CreatePortal | src/bpp_shared/teleporter.cpp:167-207 | the doorway goes to the nearest roomy site, else the nearest narrow one, else to the entity on a cleared platform; each block of the world is what that says and nothing else changes |
| PortalCreation.PickedPlace | src/bpp_shared/teleporter.cpp:167-186 | a site is at most 16 blocks from the entity's in x and z; without one the doorway goes to the entity's block, at a height of 70 to 118 |
| PortalCreation.SiteExactly | src/bpp_shared/teleporter.cpp:32-66 | the sites are exactly the places in the world's height with solid blocks under the whole doorway, and air above them, to every depth asked for |
| PortalCreation.PickedIsNearest | src/bpp_shared/teleporter.cpp:50-90 | no place within 16 blocks with room to a depth of three for the facing drawn is nearer than the one picked; if there is none, no place with room to a depth of one |
| PortalCreation.DoorwayStands | src/bpp_shared/teleporter.cpp:188-194 | block by block, the doorway is an obsidian frame four wide and five high around two by three portal blocks |
| PortalCreation.PlatformStands | src/bpp_shared/teleporter.cpp:177-186 | without a site, the columns before and behind the inside are air over obsidian |
| PortalCreation.RestStays | src/bpp_shared/teleporter.cpp:177-194 | every other block stays |
| PortalArrival.ScanFindsPortals | src/bpp_shared/teleporter.cpp:100-151 | the search succeeds if and only if there is a portal block within 128 blocks in x and z |
| PortalArrival.ScanFindsTheNearest | src/bpp_shared/teleporter.cpp:124-148 | what it finds is the foot of a column of portal blocks, and none in the square is nearer, or as near and earlier in x, z or from above |
| PortalArrival.TargetExactly | src/bpp_shared/teleporter.cpp:154-160 | the entity goes to the middle of the block found, moved half a block towards each portal block beside it |
| PortalArrival.TargetIsMiddle | src/bpp_shared/teleporter.cpp:154-160 | that is the middle between the two if there is one such block, and the block's own middle if there is none |
| PortalArrival.DoorwayIsFound | src/bpp_shared/teleporter.cpp:93-98 | after building, the second search succeeds if and only if there was a site or one of the two chunks under the doorway's inside is generated |
| PortalArrival.EndsInTheDoorway | src/bpp_shared/teleporter.cpp:93-160 | an entity for which a doorway was built ends midway between the two columns inside it, or in the middle of the only one that could be written |
| PortalArrival.PlaceAtValidTransferSpot | src/bpp_shared/teleporter.cpp:93-98 | the entity ends in the nearest portal of its square, old or just built, and in a built one midway between the columns, both of which are there at a site; it stays put if and only if there is no old one and nowhere to build |
| RecipeKeys.MakeShapedKey | src/bpp_shared/crafting/recipe_manager.cpp:129-167 | the key is the normalised contents of the tight bounding box moved to the top left |
| RecipeKeys.SameToRecipesExactly | src/bpp_shared/items/item_properties.h:117-129 | two items are the same to a recipe if and only if their ids agree, and their metadata too unless they are planks, saplings, logs or wool |
| RecipeKeys.SameKeyExactlyWhenAlike | src/bpp_shared/crafting/recipe_manager.cpp:129-167 | any two grids get the same shaped key if and only if one is the other moved, metadata of enclosed empty cells included, sizes of the grids aside |
| RecipeKeys.TranslatesHaveOneKeyExactly | src/bpp_shared/crafting/recipe_manager.cpp:160-164 | translates get the same key if and only if the metadata of their enclosed empty cells agrees |
| RecipeKeys.SameKeyExactlyWhenTranslates | src/bpp_shared/crafting/recipe_manager.cpp:129-167 | grids without stray metadata get the same key if and only if they are translates |
| RecipeKeys.StrayMetadataSplitsKeys | src/bpp_shared/crafting/recipe_manager.cpp:160-164 | two grids with the same items in the same places get different keys when an empty cell carries metadata |
| RecipeMirror.MirrorGrid | src/bpp_shared/crafting/recipe_manager.cpp:82-88 | the array becomes the mirror image, row by row, with the same items |
| RecipeMirror.KeyingCommutesWithMirroring | src/bpp_shared/crafting/recipe_manager.cpp:82-88 | the key of the mirror image is the mirror image of the key |
| RecipeMirror.MirrorTwice | src/bpp_shared/crafting/recipe_manager.cpp:82-88 | mirroring undoes itself |
| ShapelessKeys.MakeShapelessKey | src/bpp_shared/crafting/recipe_manager.cpp:169-184 | the key is the sorted first nine valid items, padded |
| ShapelessKeys.ValidIdsExactly | src/bpp_shared/items/item_properties.h:60-70 | the ids that count are those of blocks, items and records |
| ShapelessKeys.SameKeyExactlyWhenPermuted | src/bpp_shared/crafting/recipe_manager.cpp:169-184 | two lists get the same key if and only if the same normalised valid items count in both |
| ShapelessKeys.PermutedGridsHaveOneKey | src/bpp_shared/crafting/recipe_manager.cpp:118-124 | permuting up to nine cells keeps the key, so looking up the mirrored grid is harmless |
| Recipes.AddShapedAgrees | src/bpp_shared/crafting/recipe_manager.cpp:72-79 | adding or overwriting an entry keeps the map equal to "the last recipe added whose pattern is alike this grid", for every grid |
| Recipes.RecipeManager.AddShapedRecipe | src/bpp_shared/crafting/recipe_manager.cpp:33-80 | the pattern read from the rows is added, or nothing if a symbol is not mapped |
| Recipes.PatternExactly | src/bpp_shared/crafting/recipe_manager.cpp:33-75 | each cell of a pattern is what the character in that column and row stands for, or empty for a space and beyond the rows given |
| Recipes.LookupExactly | src/bpp_shared/crafting/recipe_manager.cpp:56-62 | a character stands for the item of the last pair with that symbol, and for nothing without one |
| Recipes.RecipeManager.AddShapelessRecipe | src/bpp_shared/crafting/recipe_manager.cpp:22-30 | the list is added, replacing one of the same items |
| Recipes.RecipeManager.MatchGrid | src/bpp_shared/crafting/recipe_manager.cpp:90-127 | for any slots, the result is that of the last recipe whose pattern is alike the grid, else its mirror image, else the last shapeless recipe of the same items, else nothing |
| Recipes.CleanSlotsMatchTranslates | src/bpp_shared/crafting/recipe_manager.cpp:90-127 | for slots without stray metadata, alike a pattern means a translate of it |
| CommandTree.ThenKeepsOrder | src/bpp_server/commands/strategos.h:147-157 | catch-all children stay last and each kind keeps the order in which it was added |
| CommandTree.TypedMatchesWin | src/bpp_server/commands/strategos.h:514-526 | a literal or typed child that matches wins over every catch-all |
| CommandTree.Tokenize | src/bpp_server/commands/strategos.h:500-512 | the tokens are the non-empty words between spaces |
| CommandTree.WordIsOneToken | src/bpp_server/commands/strategos.h:500-512 | a word appended after a space or at the start is one more token |
| CommandTree.SpacesAreNoToken | src/bpp_server/commands/strategos.h:500-512 | spaces add no token |
| CommandExecution.Execute | src/bpp_server/commands/strategos.h:317-393 | the outcome is explained by a reading of the line from the root as far as the grammar goes, with the position where it stops; a command for operators is refused to everybody else and never to an operator, and what runs is no such command or run by an operator |
| CommandExecution.WalkExplained | src/bpp_server/commands/strategos.h:342-393 | somebody else gets the refusal as soon as the first token names a command for operators, before any error in the rest of the line; every other outcome comes with its reading: each node is the first child that matches its token and accepts its group of tokens, and the outcome says why there is no next one |
| CommandExecution.NoMatchNoGroup | src/bpp_server/commands/strategos.h:528-640 | a node that does not match a token accepts no group that begins with it |
| CommandSuggestions.SuggestAt | src/bpp_server/commands/strategos.h:399-471 | the recursion ends by the depth bound and yields the suggestions of the node reached |
| CommandSuggestions.NestedExtends | src/bpp_server/commands/strategos.h:473-492 | every suggestion for a nested command, started again at the root with one slash taken off, extends what stands in the line |
| CommandLines.Suggest | src/bpp_server/commands/strategos.h:278-315 | every suggestion extends what stands in the line from its start |
| CommandLines.BaseExactly | src/bpp_server/commands/strategos.h:278-288 | the command begins at the first character that is no space, after a slash if that is one, and the spaces behind it |
| CommandSuggestions.SuggestionsExtend | src/bpp_server/commands/strategos.h:399-498 | the same at every depth, nested commands included |
| CommandOffers.SuggestionsExactly | src/bpp_server/commands/strategos.h:433-492 | a suggestion is made if and only if a child of the node reached makes it: one that its user may run, before any typed child that matches already, offers a text that goes on from what is typed, or starts a nested command that does |
| CommandOffers.ReachedExactly | src/bpp_server/commands/strategos.h:399-431 | the node reached is the one at which execute stands after the finished tokens, if these can be read to the end by somebody who may run the command, with no nested command between |
| CommandOffers.NestedStartsAgain | src/bpp_server/commands/strategos.h:473-492 | a nested command is suggested for like a line of its own, with the slash taken off the token typed or off its first finished token |
| CommandLines.TypedEndsTheLine | src/bpp_server/commands/strategos.h:278-306 | the token being typed ends the line and the finished tokens are those of the text before it |
| CommandSuggestions.WalkFollows | src/bpp_server/commands/strategos.h:405-431 | execute takes the steps of suggest over the finished tokens when one more token follows |
| CommandSuggestions.SuggestionIsUnderstoodExactly | src/bpp_server/commands/strategos.h:399-498 | a suggestion that is not nested, put in place of what was typed, makes a line in which execute finds no unknown and no surplus token if and only if some child of the node reached accepts the suggested text |
| CommandSuggestions.SuggestionIsUnderstood | src/bpp_server/commands/strategos.h:433-471 | that is so for every such suggestion where each child on offer is a literal, accepts any token or has no source of suggestions |
| CommandLines.CompletedLineIsUnderstood | src/bpp_server/commands/strategos.h:278-383 | the same equivalence on the text of the line, for suggestions of one word |
| CommandSuggestions.AllAreDirect | src/bpp_server/commands/strategos.h:433-471 | where no nested command is offered, every suggestion is of that kind |

## Left out

- Chunk delivery: the states before login ends are one state; the packets on the way into play, and the respawn of a player in the dimension it is in, are not modelled.
- Chunk delivery: a batch of changes holds positions inside its chunk, as everything that reports changes computes them; block and metadata values are not cut to a byte.
- SpawnEntry.PlayerEnters: supposes that a player's chunk jobs finish before the flush of the turn, because futures are the environment's; the more turns they take, the later it is let in.
- Chunk delivery: when the world drops chunks is left to the environment, also for chunks that a client holds.
- Delivery.DeliverKeepsInv: promises the changes, each as often as it was broadcast; their order is kept under a condition only, which `ArrivalOrder.DeliverKeepsOrderExactly` states.
- Chunk delivery: futures are a set of finished jobs that the environment chooses; the contents of whole-chunk packets, zlib, the packets for signs and the sharing of one packet between sessions are not modelled.
- ChunkSending.SortByDistance: stands for `std::sort` as an insertion sort; the order among equal distances is left open in the protocol.
- Chunk delivery: equality of the client's blocks with the live chunk is not claimed, because sub-region jobs read the chunk when they run while small updates go out at once.
- Entity tracker: velocity, equipment, metadata and damage packets; the 32-bit wrap of quantised coordinates; one tracker of the two, so that what the other one spawns does not appear; a fishing bobber without owner, which is recorded as visible with no packet. `Showable` restricts to entity types that have a spawn packet and to players with a session.
- EntityTracking.EntityTracker.Tick: distances are reals.
- EntityManaging.EntityManager.Tick: an entity's own tick may move it and be its death, but it does not add entities, kill others or change who rides whom.
- EntityManaging: the list of players, the callbacks, gamerule filters (a parameter of `AddEntity`), and the other queries, which filter `GetEntitiesWithinAabb` or repeat it over the collider lists.
- EntityManaging.EntityManager.UnmountEntity: says where the rider lands, not what its collider is afterwards.
- Thread pool: pause, priorities, purge, timed waits, destruction, reset, and exceptions in tasks.
- PortalCreation.WorldManager.CreatePortal: neighbour updates and writes queued for chunks that are not generated; block properties other than "solid" are not part of this model.
- Portal search: coordinates are reals, so ties are exact; rounding of distances is not modelled.
- Commands: reading numbers and coordinates is a parameter of the model; the actions, the error texts, the values handed to actions, and the final sort and removal of duplicates in `suggest`.
- CommandSuggestions.SuggestionIsUnderstoodExactly: is about trees whose greedy nodes have no children, as in all commands of the server; a greedy node takes the rest of the line, so what stands under it is never reached by `execute`.
- CommandSuggestions.SuggestionIsUnderstood: asks of the children on offer that each accepts any token, is a literal or has no source of suggestions, as in all commands of the server; SuggestionIsUnderstoodExactly says what holds of the others.
- Sockets, files, logging, addons, physics, block tables and the list of vanilla recipes.
