# Verified core of cube-core

A Dafny model of the parts of this game-server framework whose correctness is hard to see from the code: snapshot
replication from the differ to the client, entity synchronisation, entity locking, the lock-free structures, the fast
containers, the transaction undo log and the dependency scheduler. `dafny verify dfyconfig.toml` checks all of it.

Two shapes are used. Code that updates fields or loops is a class or a method, and its `ensures` ties the new state to
a specification function of the old one. Code that several goroutines run at once is a machine: a total
`Step(state, action)`, where an action that is not enabled changes nothing, and `Run(actions)`; a theorem about
`Run(acts)` for every `acts` is a theorem about every interleaving.

| area | files | main result |
|---|---|---|
| replication | ReplicationTypes, Snapshots, Deltas, DeltaLoops, BuiltFrames, Codec, CodecLoops, Datagrams, Reassembly, Reassembler, Ring, Sessions, Replicators, SessionRuns, EndToEnd, Projections, Divergence | with packets lost, repeated and reordered, a client never holds anything but the server's projection of a tick; any two projections of one tick break that |
| level of detail | Lod, LodRuns | whatever comes and goes, a limited component is never staler than its interval; in a second it is refreshed at most rate times plus once for each forced refresh |
| entity synchronisation | SubjectSync, Subscriptions, EntitySync, Flushes, Retries | in every interleaving, members are at the subject's version and their views differ from the entity only on pending fields, exactly as long as no finished update with something stale is handed over again |
| group locks | GroupLocks, GroupLockLoops, GroupEscapes | handlers whose entities share a lock group never run at once, and their entities do not change group; other entities leave the group exactly through transitions that do not lock it |
| entity locks | LockOrder | no circle of blocking waits, and somebody can always move |
| MPSC ring | MpscQueue | pops are the pushes in ticket order, for any number of producers |
| hash map | FastTables, FastMap | open addressing with tombstones is a map, for every hash function |
| checkpoint loader | LoadOrder, Loader | the sort succeeds exactly on acyclic graphs; levels are exact |
| undo log | UndoLog | rolling back restores the state at the start for all writes, overlapping ones included |
| entity ids | EntityIds, IdGen | ids are unique over all interleavings; building and resolving are inverse |
| local cache | LocalCache | counters are exact, both bounds hold, oldest writes go first, the new one stays |
| touch word | TouchWord | an entity is cleared exactly once and never while touched |

Common holds facts about sorting, division, sets and runs that the other modules share.

Where the code falls short of a natural claim, the model keeps the code, shows an input, and proves the exact condition:

- `DecodeFrame` compares a payload length with the component limit truncated to 32 bits (replication/codec.go:119), so
  encoding and decoding is the identity exactly when the payloads fit the truncated limit: `Codec.EncodeThenDecode`,
  `Codec.TruncatedLimitRejects`.
- A session keeps only the last snapshot committed for a tick (replication/session.go:182). A projector that shows one
  tick in two ways, as a level-of-detail selector does when the quality tier changes between two sends
  (`LodRuns.TiersShowTwoWays`), therefore leads a client to hold a snapshot the server never made, without an error:
  `Divergence.TwoWaysDiverge`, for any two different projections. With one projection for each tick no run does that:
  `Divergence.OneWayNeverAstray`.
- A transition does not always lock the group its entity is in (nest/group_transition.go:284-307). An entity can leave a
  group while a handler runs under that group's lock if and only if the transition does not lock the group:
  `GroupEscapes.LeftIffUnlocked`, for every group, kind, target and group read. Every join of another group is such a
  transition.
- Distribute admits the envelopes before the commit finds an update finished (entitysync/subscription.go:309-317). After a
  refused admission, handing the update over again puts members a version ahead of the subject: `Retries.RetryRunsAhead`,
  `Retries.RetryExample`. The invariant holds along a run if and only if no finished update with another version or
  something stale is admitted in it (`Retries.InvIffCareful`); a committed update can be handed over again without harm if
  and only if the subject is still at its version (`Retries.CommittedAgain`).
- A rate limit does not bind full refreshes (replication/lod.go:213), and a session without an acknowledgement asks for one
  at every tick: `LodRuns.UnackedRefreshesAlways`. A tick at which nothing forces a refresh has one if and only if it is
  due (`LodRuns.RefreshedWhenDue`), which gives the bound `LodRuns.RateIsKept`.

cache/atomic_local.go:247-256 rebuilds the clock when it runs out during an eviction; `LocalCache.SweepEnds` shows
that it never does, so the model has no such branch.

## Model

| member | source | states |
|---|---|---|
| `Snapshots.NewSnapshotNormal` | replication/snapshot.go:8-54 | every accepted snapshot is in normal form: objects strictly by reference, components strictly by type, no zero ids, all limits met |
| `Snapshots.NormalizeKeepsView` | replication/snapshot.go:8-54 | for distinct objects, sorting changes the order and nothing of what is in the snapshot |
| `Snapshots.ObjectsDetermined` | replication/snapshot.go:8-54 | two normal forms with the same objects and components are the same sequence |
| `Snapshots.NewSnapshotCanonical` | replication/snapshot.go:8-54 | any listing of a normal snapshot's objects is accepted and gives that snapshot back |
| `Snapshots.ScanComponentLoop` | replication/snapshot.go:35-51 | the component loop's running size estimate and first error are those of the specification |
| `Snapshots.ScanObjectOnce` | replication/snapshot.go:20-52 | one object's checks against its predecessor give the specified error or new estimate |
| `Snapshots.ScanObjectLoop` | replication/snapshot.go:19-52 | the validating loop reports the first error met, or the estimate of the whole snapshot |
| `Snapshots.NormalizeSnapshot` | replication/snapshot.go:8-54 | the whole constructor: sort, then validate; result and error are those of the specification that the laws above are about |
| `Deltas.DeltaMeaning` | replication/delta.go:8-177 | applying a built frame to its base yields the current snapshot or an error, for any client limits; and it succeeds whenever the current snapshot is normal for the client and the merged references and types fit its limits |
| `Deltas.FrameObjects` | replication/delta.go:29-61 | before listing: the applied objects are exactly the current ones, whatever the base |
| `Deltas.PairLands` | replication/delta.go:29-88 | the at most one delta between two states of an object turns the first into the second, or exceeds the component limit because the merged types do; no delta means no difference |
| `Deltas.UpdateLands` | replication/delta.go:63-88 | the same for an update in place, when the archetype is kept |
| `Deltas.ComponentDiffLands` | replication/delta.go:63-88 | the component difference of two sorted lists turns the first into the second, or exceeds the limit because the merged types do |
| `Deltas.Relisted` | replication/delta.go:172-176 | listing the rebuilt objects in any order and normalizing can only give the current snapshot back |
| `DeltaLoops.DiffComponentLoop` | replication/delta.go:63-88 | the two-cursor merge over components produces the specified difference |
| `DeltaLoops.CreateDeltaLoop` | replication/delta.go:90-99 | a created object lists all its components as set |
| `DeltaLoops.DiffObjectOnce` | replication/delta.go:46-55 | one pair of objects: recreate on a new archetype, otherwise update, otherwise nothing |
| `DeltaLoops.DiffNext` | replication/delta.go:31-60 | a turn of the object merge contributes exactly what the remaining difference lacks and moves a cursor |
| `DeltaLoops.DiffObjectLoop` | replication/delta.go:29-61 | the object merge loop ends with the specified difference |
| `DeltaLoops.BuildDeltaFrame` | replication/delta.go:8-27 | full frame without a base, delta otherwise, and the errors for a base that is not earlier or of another schema |
| `DeltaLoops.IndexComponents` | replication/delta.go:180-185 | the component map is the meaning of the list, later entries winning |
| `DeltaLoops.ApplyComponentOnce` | replication/delta.go:186-206 | one component delta changes the map as specified or fails with the specified error |
| `DeltaLoops.ApplyComponentLoop` | replication/delta.go:179-212 | the components after all deltas are those of the specification, each type once |
| `DeltaLoops.ListComponentLoop` | replication/delta.go:207-211 | ranging over the map in any order lists every component once |
| `DeltaLoops.IndexObjects` | replication/delta.go:125-127 | the object map is the meaning of the base's list, the last object of a repeated reference winning |
| `DeltaLoops.ApplyObjectOnce` | replication/delta.go:132-170 | create, update and remove of one object, each with its refusals |
| `DeltaLoops.ApplyObjectLoop` | replication/delta.go:132-170 | all object deltas in order, stopping at the first refusal |
| `DeltaLoops.ListObjectLoop` | replication/delta.go:172-175 | ranging over the map in any order lists every object once |
| `DeltaLoops.ListingIrrelevant` | replication/delta.go:172-176 | the map's iteration order influences neither the snapshot nor the error |
| `DeltaLoops.RebuildSnapshot` | replication/delta.go:110-177 | the whole of ApplyDelta computes the function that the delta law is about |
| `BuiltFrames.BuiltFrameValid` | replication/codec.go:142-206 | a frame built between normal snapshots passes the encoder's validation under the same limits |
| `Codec.EncodedBytes` | replication/codec.go:12-58 | whatever the encoder returns is the byte layout of the frame, and the frame was valid |
| `Codec.DecodeSound` | replication/codec.go:60-140 | whatever the decoder accepts is a valid frame whose layout is exactly the input |
| `Codec.DecodeThenEncode` | replication/codec.go:12-140 | accepted bytes re-encode to those same bytes |
| `Codec.DecodeComplete` | replication/codec.go:60-140 | every valid frame within the limits decodes from its layout |
| `Codec.EncodeThenDecode` | replication/codec.go:12-140 | an encoded frame within the frame limit decodes to itself if and only if its payloads fit the truncated component limit |
| `Codec.SmallLimitFits` | replication/codec.go:119 | with a component limit below 2^32 the condition always holds |
| `Codec.TruncatedLimitRejects` | replication/codec.go:119 | a component limit of 2^32 makes an encoded frame undecodable |
| `Codec.BytesDetermineFrame` | replication/codec.go:12-58 | different frames have different bytes |
| `Codec.DecodeElsewhere` | replication/codec.go:60-140 | a receiver with other limits decodes a frame of less than 2^32 bytes to that frame or not at all |
| `Codec.ObjectsLength` | replication/codec.go:30-53 | no payload is longer than the encoded bytes it is part of |
| `CodecLoops.ValidateComponentLoop` | replication/codec.go:183-203 | the component checks, with the set of types seen, give the specified first error |
| `CodecLoops.ValidateObjectOnce` | replication/codec.go:159-203 | one object's checks give the specified first error |
| `CodecLoops.ValidateFrameLoop` | replication/codec.go:142-206 | validation of a whole frame gives the specified first error or none |
| `CodecLoops.WriteComponentLoop` | replication/codec.go:41-52 | components are appended to the buffer in order, or the first oversized one is reported |
| `CodecLoops.EncodeFrameLoop` | replication/codec.go:12-58 | the encoder's loops produce the specified bytes or error |
| `CodecLoops.ReadComponentLoop` | replication/codec.go:110-131 | the component reading loop returns what the cursor grammar says and what is left |
| `CodecLoops.ReadObjectOnce` | replication/codec.go:95-132 | one object is read with its components, or the specified error |
| `CodecLoops.ReadObjectLoop` | replication/codec.go:95-133 | all announced objects are read, or the first error is returned |
| `CodecLoops.DecodeFrameLoop` | replication/codec.go:60-140 | the decoder's loops compute the function that the codec laws are about |
| `Datagrams.DatagramRoundTrip` | replication/datagram.go:80-146 | a datagram within the receiver's limits decodes to its header and payload, for every checksum function |
| `Datagrams.ChunksConcat` | replication/datagram.go:36-78 | the chunks of a frame, in order, are its encoded bytes |
| `Datagrams.ChunksLength` | replication/datagram.go:51 | there are as many chunks as the rounded-up division says |
| `Datagrams.ChunkSlice` | replication/datagram.go:60-62 | the i-th chunk is the slice the sending loop takes |
| `Datagrams.FragmentSendable` | replication/datagram.go:36-54 | a frame that passes the checks is cut within all limits into chunks that are its bytes |
| `Datagrams.SendableShort` | replication/datagram.go:47-54 | what can be cut into datagrams has less than 2^32 bytes |
| `Datagrams.PacketsAnySession` | replication/datagram.go:80-101 | packets do not depend on the session the receiver files them under |
| `Datagrams.FragmentsCut` | replication/datagram.go:36-78 | what the fragmenter returns are exactly the sealed packets of that cut |
| `Datagrams.CutOne` | replication/datagram.go:60-76 | one turn of the cutting loop makes the specified packet |
| `Datagrams.CutLoop` | replication/datagram.go:59-77 | the cutting loop makes all packets of the transmission in order |
| `Datagrams.FragmentFrameLoop` | replication/datagram.go:36-78 | the whole fragmenter, errors included |
| `Reassembly.AcceptGenuine` | replication/datagram.go:231-254 | filing a genuine chunk keeps the assembly genuine and delivers, whole, exactly when it was the last one missing |
| `Reassembly.PushGenuine` | replication/datagram.go:202-255 | after any genuine history the only refusal is for capacity, and the only delivery is the exact frame |
| `Reassembly.ReceiveGenuine` | replication/datagram.go:202-255 | the same starting from the packet's bytes |
| `Reassembly.RunConsistent` | replication/datagram.go:202-279 | every run of genuine packets, in any order with any repetition and expiry, keeps every assembly a part of its frame |
| `Reassembly.RunDeliversExactly` | replication/datagram.go:202-279 | over every run: deliveries are exactly the frame's bytes and happen only with the last chunk missing, refusals are only for capacity, and the number of assemblies stays within MaxInflightFrames |
| `Reassembly.ChunksAccumulate` | replication/datagram.go:231-254 | until a frame is delivered the receiver holds exactly the chunks of it that arrived |
| `Reassembly.RunDelivers` | replication/datagram.go:202-279 | once all chunks of a frame arrived without expiry or refusal, the frame has been delivered |
| `Reassemblers.ConcatLoop` | replication/datagram.go:249-252 | the joining loop concatenates the chunks in index order |
| `Reassemblers.Reassembler.constructor` | replication/datagram.go:181-186 | starts empty with normalized limits and the default lifetime when none is given |
| `Reassemblers.Reassembler.ExpireAt` | replication/datagram.go:257-279 | removes exactly the assemblies that waited for the lifetime and says how many |
| `Reassemblers.Reassembler.AcceptChunk` | replication/datagram.go:231-254 | files a chunk: new table of assemblies and outcome are the specified ones |
| `Reassemblers.Reassembler.PushDatagram` | replication/datagram.go:202-255 | the receiver's step is the one the run theorems are about, for any bytes and any reachable table |
| `Ring.SnapshotRing.constructor` | replication/ring.go:13-18 | empty, with the default capacity when none is given |
| `Ring.SnapshotRing.Reindex` | replication/ring.go:36-38 | every index moves down by one |
| `Ring.SnapshotRing.EvictOldest` | replication/ring.go:32-38 | the oldest snapshot goes and the index stays exact |
| `Ring.SnapshotRing.Push` | replication/ring.go:32-41 | the window slides by one and the index stays exact |
| `Ring.SnapshotRing.Add` | replication/ring.go:20-44 | accepts exactly the valid snapshots newer than all before |
| `Ring.SnapshotRing.Get` | replication/ring.go:46-59 | finds a tick if and only if it is among the last capacity published, and returns what was published |
| `Ring.SnapshotRing.Latest` | replication/ring.go:61-73 | the last snapshot published, if any |
| `Sessions.SessionState.constructor` | replication/session.go:57-62 | a new session waits for a full frame and has sent nothing |
| `Sessions.SessionState.PrepareFrame` | replication/session.go:135-161 | draws the next sequence and picks the acknowledged snapshot as base, or falls back to a full frame |
| `Sessions.SessionState.TrimHistory` | replication/session.go:183-187 | drops the oldest ticks until 64 remain |
| `Sessions.SessionState.Commit` | replication/session.go:163-192 | a frame of an old generation or sequence is refused and changes nothing; otherwise it becomes the sent snapshot of its tick |
| `Sessions.SessionState.Ack` | replication/session.go:73-96 | moves the acknowledgement forward to a sent tick only, with each refusal |
| `Sessions.SessionState.Control` | replication/session.go:23-55 | acknowledgement and resync through control messages |
| `Sessions.SessionState.ForceFullFrame` | replication/session.go:98-108 | starts a new generation that begins with a full frame |
| `Sessions.SessionState.SetTier` | replication/session.go:110-124 | a tier change starts a new generation |
| `Sessions.SessionState.CloseSession` | replication/session.go:194-203 | a closed session keeps nothing it could send from |
| `Replicators.BuiltTicket` | replication/replicator.go:291-315 | a prepared frame is the delta of its snapshot from its base, and its packets are what goes on the wire |
| `Replicators.PreparedTicket` | replication/replicator.go:276-316 | whatever the outcome, preparing draws at most one sequence, and the ticket carries that sequence and the generation |
| `Replicators.PreparedFrom` | replication/replicator.go:276-316 | the prepared snapshot is the normalized projection, in normal form, and its base is the session's acknowledged snapshot or none |
| `Replicators.BuildTicketFrame` | replication/replicator.go:291-315 | build, encode and fragment in turn, stopping at the first error |
| `Replicators.NormalizeProjected` | replication/replicator.go:590-608 | the projection is normalized under the published snapshot's metadata |
| `Replicators.PrepareLatestFrame` | replication/replicator.go:276-316 | the whole preparation acts on the session as specified |
| `Replicators.PreparedFrame.Commit` | replication/replicator.go:53-64 | commits at most once; a second call repeats the first answer |
| `Replicators.PreparedFrame.Abort` | replication/replicator.go:66-71 | spends the frame without touching the session |
| `SessionRuns.TrimKeepsHistory` | replication/session.go:183-187 | trimming keeps the history exact and loses only the oldest ticks |
| `SessionRuns.RecordKeepsHistory` | replication/session.go:176-182 | recording a tick keeps the order listing exactly the stored ticks, rising |
| `SessionRuns.CommitKeeps` | replication/session.go:163-192 | a commit keeps the session's invariant, advances the committed sequence, and a refused one changes nothing |
| `SessionRuns.StepSourced` | replication/replicator.go:276-372 | after any step everything in the sent history came from a frame prepared for this session |
| `SessionRuns.RunKeeps` | replication/session.go:23-203 | the session invariant holds after every run of publish, prepare, commit, abort, ack, control, force-full, tier change and close |
| `SessionRuns.HistoryOverRuns` | replication/session.go:73-192 | over every run: ackTick is at most lastSent, and sentOrder lists exactly the keys of sent, rising, at most 64 |
| `SessionRuns.PreparationOverRuns` | replication/session.go:135-161 | after every run a preparation's base is what was sent for the acknowledged tick, the projector is shown what was sent last, and no base means a full refresh |
| `SessionRuns.NeverBack` | replication/session.go:73-192 | over every run the acknowledged tick and the generation never decrease |
| `SessionRuns.StaleNeverCommits` | replication/session.go:23-55 | no frame prepared before a forced full frame, a resync or a change of tier ever commits after it |
| `SessionRuns.ClosedForever` | replication/session.go:194-203 | over the rest of any run a closed session changes nothing and no frame is prepared for it |
| `SessionRuns.FirstCommitIsFull` | replication/session.go:98-192 | until an acknowledgement advances, the first frame committed after a forced full frame or resync is a full one |
| `EndToEnd.RebuildTrue` | replication/delta.go:110-177 | a client whose snapshots are true rebuilds from an honest frame the true snapshot or nothing |
| `EndToEnd.DeliverEffect` | replication/datagram.go:202-255 | one packet changes the client's snapshots at most by adding the projection of the packet's tick |
| `EndToEnd.RunKeeps` | replication/replicator.go:276-372 | the joint invariant of server, wire and client holds after every run |
| `EndToEnd.ClientNeverDiverges` | replication/session.go:135-192 | in every run with loss, duplication, reordering, expiry and forgotten snapshots, every snapshot the client holds is the server's projection of that tick, whatever the limits |
| `EndToEnd.EveryBaseHeld` | replication/session.go:135-161 | the client has rebuilt the base of every delta frame the server ever prepared; unless it forgot it, it holds it, and it is the one the frame was built on |
| `EndToEnd.CompletedFrameRebuilds` | replication/delta.go:110-177 | with the server's limits, a completed frame whose merge fits gives the client that tick's projection if its payloads fit the truncated limit, and otherwise changes nothing |
| `Projections.PureBuildAllowed` | replication/replicator.go:590-608 | a projector that is a function of the snapshot never shows one tick in two ways |
| `Projections.PureProjectorNeverDiverges` | replication/replicator.go:276-316 | with such a projector, in every run, the client holds for each tick exactly the projection of what was published |
| `Projections.SecondSendReplacesBase` | replication/session.go:163-192 | two commits of one tick: the second snapshot becomes the base although the client acknowledged the first |
| `Projections.TwoProjectionsDiverge` | replication/session.go:163-192 | a client that rebuilt the other projection ends up right if and only if the two projections are equal |
| `Divergence.FrameArrives` | replication/datagram.go:202-255 | delivering all packets of a frame in order to an idle receiver rebuilds it once and leaves nothing in flight |
| `Divergence.NextRebuilt` | replication/delta.go:110-177 | a client that holds one projection applies the next tick's frame, built on the other, to a snapshot nobody made |
| `Divergence.BothSent` | replication/session.go:110-192 | publish, send one projection, change the tier, send the other: both commit and the second is kept as the base |
| `Divergence.TwoWaysDiverge` | replication/session.go:163-192 | for any two different projections of a tick that can be sent, some run ends with the client holding a snapshot that is none of those the server made |
| `Divergence.OneWayNeverAstray` | replication/session.go:135-192 | with one projection for each tick, no run does |
| `Lod.IntervalPositive` | replication/lod.go:227-237 | the interval is positive and rate intervals cover a second of snapshots |
| `Lod.AtMostPerInterval` | replication/lod.go:227-237 | in m intervals a component is due at most m times, wherever they start |
| `Lod.DueWithinRate` | replication/lod.go:227-237 | in any SnapshotRateHz consecutive ticks at most rate ticks are due |
| `Lod.FindProjected` | replication/lod.go:171-225 | what a projection shows of a component type: nothing when omitted or absent, the selected value otherwise |
| `LodRuns.ObjectShown` | replication/lod.go:189-223 | what a projection shows under a reference is the projection of the source's last object with it |
| `LodRuns.SeenSelected` | replication/lod.go:171-225 | what is seen of a component at a tick is nothing when the source has none, and the selected value otherwise, with what was shown the tick before as the previous snapshot |
| `LodRuns.RefreshedWhenDue` | replication/lod.go:213-237 | a refresh happens if and only if it is due or forced: by a full refresh, a new object or component, another archetype or another schema version |
| `LodRuns.RefreshedOrKept` | replication/lod.go:203-221 | a refresh shows the source's value and anything else what was seen the tick before; a component is seen exactly when the source has it |
| `LodRuns.StalenessIsBounded` | replication/lod.go:203-237 | over runs of the whole projector with arbitrary sources and full refreshes: under a fixed decision every value seen is the source's from fewer than interval ticks earlier, and no later tick was due |
| `LodRuns.RateIsKept` | replication/lod.go:203-237 | in any SnapshotRateHz consecutive ticks of such a run a component is refreshed at most rate times plus once for each forced tick |
| `LodRuns.UnackedIsFull` | replication/session.go:135-161 | a session without an acknowledgement, or with a full frame due, asks for a full refresh |
| `LodRuns.UnackedRefreshesAlways` | replication/lod.go:213 | under full refreshes a component is refreshed at every tick, more often than its rate |
| `LodRuns.TiersShowTwoWays` | replication/lod.go:189-201 | a selector that culls in one tier and keeps in another shows every snapshot with objects in two ways |
| `Lod.ChooseComponent` | replication/lod.go:205-221 | keep, refresh or carry over one component as specified |
| `Lod.ProjectComponentLoop` | replication/lod.go:204-221 | all components of an object in order |
| `Lod.IndexByRef` | replication/lod.go:253-262 | the previous objects by reference |
| `Lod.ProjectOne` | replication/lod.go:189-222 | one object: the selector's error, an invisible object, or the object as shown |
| `Lod.ProjectLoop` | replication/lod.go:171-225 | the projection of a snapshot; the first error met is returned |
| `SubjectSync.SubjectSyncState.constructor` | entity/subject_sync.go:181-192 | a new subject is enabled, at version zero, with nothing pending or in flight |
| `SubjectSync.SubjectSyncState.Mark` | entity/subject_sync.go:303-318 | marks fields pending and starts a new dirty generation; nothing on a closed subject |
| `SubjectSync.SubjectSyncState.MarkFull` | entity/subject_sync.go:320-340 | marks the whole entity pending with a reason |
| `SubjectSync.SubjectSyncState.PackAll` | entity/subject_sync.go:417-436 | packs every profile, or nothing when one fails |
| `SubjectSync.SubjectSyncState.PrepareUpdate` | entity/subject_sync.go:380-442 | takes the token, freezes marks and generation and packs for every profile; or fails with nothing taken |
| `SubjectSync.SubjectSyncState.CloseState` | entity/subject_sync.go:512-527 | closes the subject and forgets its marks |
| `SubjectSync.PreparedSubjectSync.CommitUpdate` | entity/subject_sync.go:553-578 | moves to the prepared version once; clears the marks only if none came since |
| `SubjectSync.PreparedSubjectSync.AbortUpdate` | entity/subject_sync.go:582-598 | gives the token back and keeps version and marks |
| `Subscriptions.SubscriptionCoordinator.constructor` | entitysync/subscription.go:117-122 | a new coordinator has no memberships |
| `Subscriptions.SubscriptionCoordinator.Subscribe` | entitysync/subscription.go:133-197 | succeeds exactly when the snapshot can be captured, packed and admitted; any failure leaves the memberships as they were; a repeat of an active membership sends nothing |
| `Subscriptions.SubscriptionCoordinator.Unsubscribe` | entitysync/subscription.go:199-253 | an admitted leave removes the member; a refused one leaves it active at its version |
| `Subscriptions.SubscriptionCoordinator.BuildBatch` | entitysync/subscription.go:291-308 | one envelope per target in key order, or none at all when a profile was not prepared |
| `Subscriptions.SubscriptionCoordinator.Distribute` | entitysync/subscription.go:257-329 | refuses an update without payloads; admits the whole batch, then commits, then moves every target to the version; any failure keeps every member and gives the update back |
| `Subscriptions.SubscriptionCoordinator.AdvanceVersions` | entitysync/subscription.go:318-327 | exactly the targets move to the version |
| `Subscriptions.WholeBatch` | entitysync/subscription.go:291-308 | a finished loop's batch addresses every target exactly once with its own profile's payload |
| `EntitySync.ReplayAgrees` | entitysync/subscription.go:257-329 | replaying an update leaves a view right on all fields that are not pending |
| `EntitySync.CommitAgrees` | entity/subject_sync.go:553-578 | after a commit, which drops marks only when none came since the update was prepared, a member that was sent the update still differs only on pending fields |
| `EntitySync.AdmitKeeps` | entitysync/subscription.go:309-314 | each target is exactly one version behind the update it is sent |
| `EntitySync.RunKeeps` | entitysync/subscription.go:133-346 | the joint invariant of entity, coordinator and members holds after every careful interleaving, repeated hand-overs included |
| `EntitySync.VersionsMatch` | entitysync/subscription.go:133-346 | between calls every active member's ContentVersion, and the version it has seen, is the subject's |
| `EntitySync.EachUpdateExtendsByOne` | entitysync/subscription.go:257-329 | every unfinished update about to be admitted extends each target's last version by exactly one |
| `EntitySync.ViewsDifferOnlyWherePending` | entity/subject_sync.go:303-598 | at every moment an active member's replayed view differs from the entity only on pending fields |
| `EntitySync.QuietViewsAreExact` | entity/subject_sync.go:303-598 | with nothing dirty and no writer, every active member sees exactly what its profile shows of the entity |
| `EntitySync.AdmittedAgain` | entitysync/subscription.go:309-317 | a finished update that is admitted again keeps every member right if and only if it has the subject's version and carries nothing stale |
| `Retries.InvIffCareful` | entitysync/subscription.go:257-329 | the invariant holds all along a run if and only if no other finished update is admitted in it |
| `Retries.OnceIsCareful` | entitysync/subscription.go:333-346 | callers that hand every update over once, as FlushSubject does, are careful |
| `Retries.ExtendsIffUnfinished` | entitysync/subscription.go:309-317 | what is about to be admitted extends a member by one version and can be committed if and only if it is unfinished |
| `Retries.CommittedAgain` | entity/subject_sync.go:553-578 | in any careful run, a committed update can be admitted again without harm if and only if the subject is still at its version |
| `Retries.AbortedAgain` | entity/subject_sync.go:582-598 | an aborted update breaks the members it is admitted to as long as no other update has been committed |
| `Retries.RetryRunsAhead` | entitysync/subscription.go:309-317 | whenever an update waits: refused and handed over again, members have seen the next version while ContentVersion and subject stay |
| `Retries.RetryExample` | entitysync/subscription.go:257-329 | such a run from the start, for any content and any write |
| `Flushes.PreparesAll` | entitysync/subscription.go:333-346 | an update prepared for the members' own profiles covers every member and changes only the token |
| `Flushes.FlushSettles` | entitysync/subscription.go:333-346 | after any run, an undisturbed flush leaves nothing dirty, one version further, and every member with exactly what its profile shows |
| `GroupLocks.CountShared` | nest/group_lock.go:125-145 | referring to an existing lock entry keeps its count the number of workers that refer to it |
| `GroupLocks.CountCreated` | nest/group_lock.go:125-145 | a new entry is counted by its creator, also after an earlier entry of the group was deleted |
| `GroupLocks.CountDropped` | nest/group_lock.go:155-162 | dropping a reference, and deleting the entry with the last one, keeps the counts exact |
| `GroupLocks.ResolvedGroup` | nest/group_lock.go:194-210 | a resolved group is the group of every snapshot that has one |
| `GroupLocks.RunKeeps` | nest/group_lock.go:125-310 | mutexes, reference counts, the lock table and every worker's knowledge stay right after every interleaving of handlers and transitions |
| `GroupLocks.RunningHoldsGroup` | nest/group_lock.go:212-289 | a running handler with an entity in a group holds the lock that the table lists for that group now |
| `GroupLocks.GroupExclusion` | nest/group_lock.go:212-289 | in every run, two handlers whose entities share a non-zero group never run at once |
| `GroupLocks.OnlyUpdateMoves` | nest/group_transition.go:122-193 | an entity's group changes only in the update of a transition that holds the entity |
| `GroupLocks.OnlyHolderMoves` | nest/group_transition.go:122-193 | no other worker holds that entity's mutex then |
| `GroupLocks.RunningKeepsGroups` | nest/group_transition.go:122-193 | a running handler's entities never change group |
| `GroupLocks.UpdaterHoldsGroup` | nest/group_transition.go:309-332 | a transition that updates holds the lock of every group it wants, on the listed entry |
| `GroupLocks.EntryNeedsLock` | nest/group_transition.go:122-193 | an entity enters a group only in an update whose worker holds that group's listed lock |
| `GroupLocks.NobodyEnters` | nest/group_transition.go:122-193 | while a handler runs in a group no entity enters that group |
| `GroupLocks.LeavesUnlocked` | nest/group_transition.go:284-307 | while a handler runs in a group, an entity leaves it only through a transition that does not lock the group |
| `GroupEscapes.GetsToRun` | nest/group_lock.go:263-289 | a job whose group locks and entity are free and whose checks pass gets to run beside all others |
| `GroupEscapes.UnlockedIsLeft` | nest/group_transition.go:122-193 | for every group and every transition that does not lock it, a run in which the transition takes its entity out of the group while a handler runs there |
| `GroupEscapes.LeftIffUnlocked` | nest/group_transition.go:284-307 | an entity can leave the group of a running handler through a given kind, target and group read if and only if that transition does not lock the group |
| `GroupLockLoops.ResolveDispatchGroup` | nest/group_lock.go:194-210 | fails exactly when two snapshots are in different non-zero groups; otherwise it is their one group, or zero |
| `GroupLockLoops.TransitionGroupsMeaning` | nest/group_transition.go:284-307 | join locks the target, leave the current group, move both: rising, none zero, none twice |
| `LockOrder.BelowIsStrictOrder` | nest/nest_dispatch.go:917-939 | (group, guid) is a strict total order |
| `LockOrder.CheckContainAllLock` | entity/entity_guard.go:243-268 | allows blocking exactly when every wanted entity is held already or all new ones are in later groups than everything held |
| `LockOrder.CallClimbs` | nest/nest_dispatch.go:783-832 | a new dispatch or cast call wants entities in rising order, each above all held ones, or only try-locks |
| `LockOrder.TakenClimbs` | entity/entity_guard.go:216-237 | taking the first wanted entity leaves the rest above everything held |
| `LockOrder.RunKeeps` | nest/cast.go:98-191 | in every run each worker blocks only on an entity strictly above all it holds |
| `LockOrder.WaitsRise` | nest/nest_dispatch.go:783-832 | along a chain of waits the entities waited for rise |
| `LockOrder.NoWaitCycle` | nest/nest_dispatch.go:783-832 | no reachable state has a circle of workers each blocked on an entity the next one holds |
| `LockOrder.WaitsEnd` | nest/nest_dispatch.go:783-854 | following the waits for an entity upwards ends at a worker that can move |
| `LockOrder.SomeoneMoves` | nest/nest_dispatch.go:783-854 | in every reachable state, when a worker is blocked some other worker can move |
| `MpscQueue.SwapHasRoom` | misc/mpsc_queue.go:47-71 | a producer that wins a ticket had seen a free slot: the ring is not full |
| `MpscQueue.RunKeeps` | misc/mpsc_queue.go:47-93 | slot sequences, values and tickets stay right after every interleaving of any number of producers and one consumer |
| `MpscQueue.PopsInTicketOrder` | misc/mpsc_queue.go:47-93 | popped values are a prefix of the pushed ones in ticket order, each once, and only published ones |
| `MpscQueue.AtMostCapOutstanding` | misc/mpsc_queue.go:47-93 | at most Cap tickets are claimed and not handed back |
| `MpscQueue.SlotsExclusive` | misc/mpsc_queue.go:56-88 | no two producers, and no producer and the consumer, use one slot's value at once |
| `MpscQueue.FullMeansFull` | misc/mpsc_queue.go:61-64 | a push gives up only if the ring was full when it looked |
| `MpscQueue.BehindIsAhead` | misc/mpsc_queue.go:61-69 | a slot whose ticket is over carries a later sequence, so a late producer retries |
| `MpscQueue.EmptyMeansUnpublished` | misc/mpsc_queue.go:75-93 | a pop gives up if and only if the next ticket has not been published |
| `FastTables.Member` | map/fast_map.go:183-197 | a key is in the table's meaning exactly when a filled slot has it |
| `FastTables.HasEmpty` | map/fast_map.go:131-144 | a table within its load has an empty slot |
| `FastTables.MissMeansAbsent` | map/fast_map.go:183-221 | meeting an empty slot without the key means the key is absent: tombstones hide nothing |
| `FastTables.StopsBefore` | map/fast_map.go:183-221 | a probe cannot pass an empty slot, so it ends |
| `FastTables.FillSound` | map/fast_map.go:168-181 | filling the slot found keeps every key reachable from its home slot |
| `FastTables.FillContents` | map/fast_map.go:168-181 | filling a free slot adds the entry |
| `FastTables.StoreContents` | map/fast_map.go:168-181 | storing into a key's slot replaces its value |
| `FastTables.BurySound` | map/fast_map.go:79-97 | a tombstone keeps every other key reachable |
| `FastTables.BuryContents` | map/fast_map.go:79-97 | a tombstone removes exactly that key |
| `FastMaps.CountIsSize` | map/fast_map.go:99-101 | the number of filled slots is the number of keys |
| `FastMaps.NextPowerOfTwo` | map/hash.go:46-55 | the least power of two at or above the argument |
| `FastMaps.CapacityForHint` | map/hash.go:64-73 | the least power of two from the minimum up that takes the hint within the load limit |
| `FastMaps.FastMap.constructor` | map/fast_map.go:20-31 | an empty map |
| `FastMaps.FastMap.FindExisting` | map/fast_map.go:183-197 | ends, and finds the key's slot or proves it absent |
| `FastMaps.FastMap.FindSlot` | map/fast_map.go:199-221 | ends, and finds the key's slot or a slot where it may go |
| `FastMaps.FastMap.SetNoGrow` | map/fast_map.go:168-181 | the map with the entry, in the same arrays |
| `FastMaps.FastMap.CopyEntries` | map/fast_map.go:146-166 | the copying loop moves all entries of the old arrays |
| `FastMaps.FastMap.Restart` | map/fast_map.go:146-166 | fresh arrays hold nothing |
| `FastMaps.FastMap.Rehash` | map/fast_map.go:146-166 | keeps the contents and drops all tombstones |
| `FastMaps.FastMap.EnsureWritable` | map/fast_map.go:131-144 | makes room for one more without changing the contents |
| `FastMaps.FastMap.Set` | map/fast_map.go:49-64 | the map with the entry added or replaced |
| `FastMaps.FastMap.Get` | map/fast_map.go:66-77 | the key's value exactly when present |
| `FastMaps.FastMap.Delete` | map/fast_map.go:79-97 | the map without the key, and whether it was there |
| `FastMaps.FastMap.Clear` | map/fast_map.go:103-111 | the empty map |
| `FastMaps.FastMap.Len` | map/fast_map.go:99-101 | the number of entries |
| `LoadOrder.OrderHasNoCycle` | checkpoint/loader.go:237-253 | a graph with an order of dependencies first has no cycle |
| `LoadOrder.StuckHasCycle` | checkpoint/loader.go:250-253 | when every node left depends on a node left, there is a real cycle |
| `LoadOrder.Pigeonhole` | checkpoint/loader.go:250-253 | a walk longer than the number of nodes repeats one |
| `Loader.IndexNames` | checkpoint/loader.go:192-201 | fails exactly on an empty or repeated collection name, and says which kind |
| `Loader.ResolveOne` | checkpoint/loader.go:206-217 | resolves a template's dependencies exactly when all are known |
| `Loader.ResolveDeps` | checkpoint/loader.go:203-218 | the same for all templates |
| `Loader.AddEdges` | checkpoint/loader.go:222-227 | one node's dependencies reversed |
| `Loader.ReverseEdges` | checkpoint/loader.go:220-228 | the reversed graph, with multiplicities |
| `Loader.Sources` | checkpoint/loader.go:230-235 | exactly the nodes without dependencies, each once |
| `Loader.Relax` | checkpoint/loader.go:241-247 | lowers each count by the edges and queues exactly the nodes that reach zero |
| `Loader.TakenReady` | checkpoint/loader.go:237-240 | a queued node's dependencies have all been taken |
| `Loader.TakeProgress` | checkpoint/loader.go:237-248 | a turn of the loop keeps counts, order and queue right |
| `Loader.LeftIsStuck` | checkpoint/loader.go:250-253 | with an empty queue whatever is left depends on something left |
| `Loader.Sort` | checkpoint/loader.go:220-253 | an order with dependencies first, or an error that implies a real cycle |
| `Loader.TopoSort` | checkpoint/loader.go:190-254 | each error exactly when it applies; success exactly when the graph has no cycle, with a permutation that has dependencies first |
| `Loader.LevelOf` | checkpoint/loader.go:263-273 | a node's level is one above its highest dependency, or zero |
| `Loader.Levels` | checkpoint/loader.go:263-273 | that for all nodes, in one pass over the order |
| `Loader.Highest` | checkpoint/loader.go:275-281 | the highest level in use |
| `Loader.Group` | checkpoint/loader.go:283-287 | each node in the group of its level and no other, once |
| `Loader.BuildLevels` | checkpoint/loader.go:257-288 | each node in exactly one level, above all it depends on and directly above one of them; no level is empty at the top |
| `UndoLog.ReplayForgets` | nest/rollback.go:268-294 | what replaying leaves in a recorded location does not depend on what the memory held |
| `UndoLog.WritesRestore` | nest/rollback.go:132-156 | after any writes, each recorded once per owner, field and token, replaying still restores every location to the start |
| `UndoLog.CaptureLogs` | nest/rollback.go:599-614 | capturing logs each owner's marks as they were |
| `UndoLog.DirtyReplay` | nest/rollback.go:599-614 | restoring marks leaves the data alone and ends with the marks of the start |
| `UndoLog.RollbackRestores` | nest/rollback.go:268-294 | rolling back restores data and marks of the start for every sequence of writes, whole-field and per-key ones overlapping |
| `UndoLog.HooksInOrder` | nest/rollback.go:178-182 | committing releases all hooks in the order they were given |
| `UndoLog.RollbackTx.constructor` | nest/rollback.go:99-101 | an open transaction without records |
| `UndoLog.RollbackTx.RecordUndoToken` | nest/rollback.go:132-156 | appends the first undo of a location and ignores later ones; refused when closed |
| `UndoLog.RollbackTx.RollbackAll` | nest/rollback.go:268-294 | the reverse loop replays the whole log and closes the transaction |
| `UndoLog.RollbackTx.CommitAll` | nest/rollback.go:296-325 | runs the hooks in order, once, and drops the undo records |
| `UndoLog.RollbackTx.AbandonAll` | nest/rollback.go:330-342 | closes without running anything |
| `EntityIds.PackHasParts` | entity/idgen.go:167-200 | each field of a packed id reads back, without disturbing the others |
| `EntityIds.BuildResolves` | entity/resolver.go:15-36 | an id can be built exactly from parts in range; resolving it recovers unique id, category, kind and remoteness, and the id is positive |
| `EntityIds.BuildIsInjective` | entity/idgen.go:148-184 | different identities get different ids |
| `IdGen.LaterBlock` | entity/idgen.go:126-133 | blocks do not overlap |
| `IdGen.NextIsNew` | entity/idgen.go:84-99 | an id about to be issued has never been issued, by any generator |
| `IdGen.RunKeeps` | entity/idgen.go:84-133 | generators, calls and blocks stay right after every interleaving, redundant rotations included |
| `IdGen.IdsAreUnique` | entity/idgen.go:84-133 | no two calls ever return the same id, and all ids lie in 1..2^51-1 |
| `LocalCache.TotalSplit` | cache/atomic_local.go:232-243 | removing an entry removes its size from the total, in whatever order sizes are added |
| `LocalCache.NextIsOldest` | cache/atomic_local.go:257-262 | no entry is older than the record under the hand, and only that record's entry is as old |
| `LocalCache.NewestSafe` | cache/atomic_local.go:257-266 | while over a bound, the record under the hand is not the one of the newest entry |
| `LocalCache.CompactSound` | cache/atomic_local.go:268-271 | dropping the records behind the hand loses no entry's record |
| `LocalCache.TotalEntries` | cache/atomic_local.go:103-108 | a store of valid shards, each with its share of MaxEntries, holds at most MaxEntries + shards - 1 entries |
| `LocalCache.Shard.constructor` | cache/atomic_local.go:103-113 | an empty shard within its bounds |
| `LocalCache.Shard.DeleteLocked` | cache/atomic_local.go:232-243 | removes the entry and exactly its share of the counters, and says whether it was there |
| `LocalCache.Shard.Delete` | cache/atomic_local.go:197-206 | the same for a caller, keeping the bounds |
| `LocalCache.Shard.Expire` | cache/atomic_local.go:224-230 | removes an entry only if it is still the one seen and has run out |
| `LocalCache.SweepEnds` | cache/atomic_local.go:245-267 | an eviction pass never runs out of records and ends within the bounds, with exact counters; what it leaves are exactly the writes after its point, and the last entry dropped had to go |
| `LocalCache.Shard.RunClock` | cache/atomic_local.go:246-267 | the eviction loop is that pass |
| `LocalCache.Shard.EvictLocked` | cache/atomic_local.go:245-272 | ends within the bounds; what is kept are exactly the writes after some point, the newest included; the last one dropped was needed to go |
| `LocalCache.Shard.Write` | cache/atomic_local.go:173-191 | the entry is the newest write and the counters are exact |
| `LocalCache.Shard.Set` | cache/atomic_local.go:142-195 | refuses exactly oversized values, ignores stale ones; otherwise the key holds the value, counters are exact, both bounds hold and only oldest writes were dropped, no more than needed |
| `LocalCache.Shard.Get` | cache/atomic_local.go:115-136 | the value exactly when present and not run out; a run-out entry is removed |
| `TouchWord.RunKeeps` | entity/entity_base.go:281-352 | the count is the number of touches held, and doClear is won at most once, after every interleaving |
| `TouchWord.ClearsOnce` | entity/entity_base.go:297-352 | doClear runs at most once, and no touch is outstanding when it runs or later |
| `TouchWord.LastReleaseClears` | entity/entity_base.go:297-311 | the last release of a removed entity returns with the entity cleared, by itself or by the one other call that won |
| `TouchWord.RemovedIsCleared` | entity/entity_base.go:297-327 | an entity removed while touched has been cleared, exactly once, when all calls have returned |
| `TouchWord.NoTouchAfterRemoval` | entity/entity_base.go:281-294 | no step takes either bit back, and once one is set no step adds a touch |
| `TouchWord.NoTouchLater` | entity/entity_base.go:281-327 | over the rest of any run, whoever holds a touch after removal held it then |

## Left out

- Transports, message buses, Redis, Mongo, etcd, HTTP, logging, metrics, administration, application start-up: input and output.
- The durable write-ahead log and the checkpoint flusher: only the loader's scheduling is modelled.
- Broadcast dispatch, nested guard scopes and re-entrant locking: the exclusion and waiting theorems are about plain dispatch, cast and group transitions.
- Worker pools, timers, retries and context cancellation: steps happen at any time or not at all, and time is an integer argument.
- CRC-32 and the hash functions are arbitrary functions; no theorem depends on which.
- Statistics counters, last-error fields, nil receivers and nil arguments.
- Registration of sessions, replacing the transport or projector, and the closing of a replicator: one session at a time is followed.
- The codec of control messages, and the room and epoch test in front of them: an arbitrary message reaches the session.
- Packing of entity content: a packer is any function of profile, field and value, and whether it fails is an argument.
- Concurrent structures are machines over values, one atomic step at a time, under sequential consistency; their memory layout is not modelled.
- EndToEnd.ClientNeverDiverges: frames are built while sequence numbers have not wrapped, and the client reassembles with the server's limits, while it decodes and applies with any limits.
- EndToEnd.CompletedFrameRebuilds: is about a client with the server's own limits and a base it has not forgotten.
- Divergence.TwoWaysDiverge: both projections must be sendable as full frames, the client must have the server's limits and be able to decode the first, and the tick must have a successor.
- Reassembly.RunDelivers: packets are those that FragmentFrame makes for frames with different keys; empty payloads, which it never makes, are not covered.
- SessionRuns.RunKeeps: a frame is built only while a sequence number without wrap-around is left.
- EntitySync.VersionsMatch: is about runs without an admission that breaks it, which Retries.InvIffCareful characterises; one subject's memberships are followed, and nobody else finishes an update while it is being distributed.
- EntitySync.QuietViewsAreExact: says nothing about a subject that has been closed.
- Subscriptions.SubscriptionCoordinator.Distribute: a missing sink is the same as one that refuses, and the key order is that of the subscribers alone.
- GroupLocks.GroupExclusion: a dispatch's snapshots of its entities' groups and epochs are arbitrary, which covers every moment they could have been captured at.
- LockOrder.NoWaitCycle: takes the entity lists of a call as already sorted by the code's comparison.
- MpscQueue.RunKeeps: holds for every capacity of at least two; rounding the capacity up to a power of two of at least sixteen, and the 64-bit wrap of tickets, are not modelled.
- IdGen.IdsAreUnique: block numbers are handed out rising, as the block source promises; a failing source is an argument.
- UndoLog.RollbackRestores: undo actions do not fail, and the reflective checks on owners and tokens are not modelled.
- LocalCache.Shard.Set: validation, key extraction and the choice of shard happen before; staleness and size are arguments.
- TouchWord.RunKeeps: the word is a count below 2^30 and two bits, not an int32.
- LodRuns.StalenessIsBounded: every tick is projected without an error and its projection is what the next one is given; the level mask is a set of levels, and the upstream projector's result is the source.
- query/index.go, misc/keymap.go, map/small_safe_map.go, registries and migrations.
- DeltaLoops.RebuildSnapshot: a base in which one object repeats a component type, which no accepted snapshot contains.
