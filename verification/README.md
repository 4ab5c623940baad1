# Postillion synchronisation: a Dafny model

Postillion keeps one workspace and many chats in step across devices, a relay at the edge, and the
engine that runs the agents. Six pieces of it hold state that must agree across machines, crashes or
representations. This project models them and proves what they promise each other. `dafny verify
dfyconfig.toml` checks everything.

| files | piece |
|---|---|
| `Hlc`, `RegistryCore`, `RegistryLaws`, `RegistryRoom`, `RegistrySize`, `RegistryDoc`, `RegistryFlight`, `RegistrySync`, `RegistryReseed`, `RegistryReads`, `RegistryProgress` | the workspace registry: clock strings, the per-field merge rule, the server's table and its size limits, the replica with its optimistic queue and what of it is in flight, the protocol over FIFO links, re-seeding, what reads and answers show, how every replica can catch up |
| `ChatLog`, `ChatSync`, `ChatClient`, `ChatLaws`, `ChatConservation`, `ChatFollowing`, `ChatProgress`, `ChatLimits`, `ChatRoom`, `CheckpointFetch`, `FetchInRuns` | the chat relay: a log with a checkpoint that prunes it, catching up and what a client does with each frame, convergence, the room and the sink as objects, the resumable download |
| `TranscriptDelta`, `TranscriptLaws`, `TranscriptFrames` | transcript frames: a diff and an in-place patch, and what a frame carries |
| `MessageParts`, `FoldEffects`, `SplitParts`, `SegmentWriter` | the event fold and what a turn leaves, splitting into entries, the incremental writer |
| `UpdateLog`, `SessionRoom` | chunked storage, fragments, replay under crashes, the disaster backup |
| `ChangeRequests` | the demand-leased cache |

How it is put together:

- Code that changes state step by step is a class or a method with loops, proved equal to a
  specification function; the properties are proved about that function.
- Specification functions are pinned by lemmas that say what they compute in other words: what a reader
  sees, what is sent, what is left after a turn.
- Protocols are step systems. Every theorem about `Run` is about every list of steps from the start, so
  about every interleaving, every cut of every link and, for the session room, every crash. Where a list
  of steps has to meet a condition, the row says which, and a lemma says that it is exact or needed.
  Safety and convergence are about what has happened; that it can happen, from every world, is
  `RegistryProgress.EveryReplicaCanReconnect`, `ChatProgress.EveryClientCanCatchUp` and
  `ChangeRequests.EveryCacheCanEmpty`.
- Clocks in the merge modules are naturals. `Hlc.ClockOfIsFaithful` embeds clock strings in them, and
  `Hlc.EncodedOrder` says when string order is the intended order.
- A few fields exist for the theorems only and are marked so: `issued` and `handled` (registry),
  `accepted`, `issued`, `caught`, `since`, `whole`, `owed` and the `landing` of a posted checkpoint (chat), `deaths` and `redrop` (session room).
- A chat document is a set of operations, import is union, a frontier is the set it claims. A JSON value
  is its serialized bytes, a text its UTF-8 bytes.
- Wall-clock readings, the iteration order of hash maps, what the network does to a download, and which
  step comes next are arguments, so that theorems hold for all of them.

Where the code and what it says of itself differ, the code is modelled:

- The clock source is documented as never repeating or going back; past 10^13 ms its strings do go back
  (`Hlc.EncodedOrderBreaksAtTenToThe13`); `Hlc.EncodedOrderIff` says between which two.
- The registry's full answer is meant to make purged deletes final; a replica that still holds such a row
  seeds it back (`RegistryReseed.PurgedRowsComeBack`).
- A seed op is described as carrying the original clocks; the clocks of cleared fields and an old tombstone
  clock are not carried over (`RegistryReseed.RestoredIsLosslessIff`).
- The chat client reports being caught up when its backfill ends. That means complete only if no
  checkpoint moved the floor past its cursor since the state frame (`ChatLaws.BackfillIsWholeIff`,
  `ChatLimits.PruningInBetweenIsMissed`); the contiguity rule still keeps the cursor honest.
- A checkpoint is captured by reading the cursor and then exporting the document, while the client's session
  may be between moving its cursor and importing what the cursor now claims. If the cursor was raised to a
  checkpoint, the post claims no more than the current one and can only be committed where `seqCovered` equals
  `seqFloor`, which the guard lets through. If it had walked to a row, the post can go through past the floor
  as well. Room and clients are sound exactly in the runs in which each commit of the first kind brings the rows
  it claims and each of the second the row then landing (`ChatLaws.ClaimsHoldIff`). Clients that read the cursor
  at neither moment ensure it (`ChatLaws.CarefulIsGuarded`). A server that commits only past the floor covers
  the first kind (`ChatLaws.StrictIsGuarded`) and no check on the number covers the second
  (`ChatLimits.NoCheckOnTheNumberSuffices`); `ChatLimits.CapturingTooEarlyLosesAnUpdate` is a run that breaks it
  the first way.
- A wiped registry is said to be rebuilt by any client, automatically and without loss. A row can outgrow the
  size limit of its own seed (`RegistrySize.SeedOutgrowsItsOps`); the whole table comes back exactly if none has
  and no frame of seeds is over the frame budget (`RegistryReseed.WipedServerIsRebuiltIff`).
- The count in a transcript frame is meant to reveal a diverged copy; on distinct ids it never does
  (`TranscriptLaws.TheTripwireNeverFires`).
- The writer relies on the fold only ever appending; the fold does keep to that
  (`MessageParts.FoldEvolves`), but one event takes a stored field away (`SegmentWriter.FoldDropsIff`).
- The session room's backup is meant to be monotonic; a crash between the put and the commit of the key
  that remembers it can undo that (`SessionRoom.ForgottenPutShrinksTheBackup`), and
  `SessionRoom.CrashKeepsTheBackupIff` says exactly which crashes can.

## Model

| member | source | states |
|---|---|---|
| `Hlc.ClockOfIsFaithful` | edge/src/registry-core.ts:22 | clock strings of any legal length (up to 149 characters) embed in the naturals so that string order and equality are exactly number order and equality; the merge modules may therefore use numbers for clocks |
| `Hlc.EncodedOrder` | crates/doc/src/registry.rs:39-44 | byte order of two encoded clocks holds if and only if (ms, counter, device) are in order, while ms is below 10^13 and the counter below 10^6 |
| `Hlc.EncodedOrderBreaksAtTenToThe13` | crates/doc/src/registry.rs:62-75 | the tick after 9999999999999-999999 encodes to a smaller string, so the bound above is needed |
| `Hlc.EncodedOrderIff` | crates/doc/src/registry.rs:39-44 | at any date, with counters below 10^6, two encoded clocks compare as their stamps do if and only if their milliseconds take the same number of digits, padding to 13 included, or the shorter is at most the leading digits of the longer |
| `Hlc.EncodedTickIsUnique` | crates/doc/src/registry.rs:42-44 | two ticks of one device never share a clock string, at any date |
| `Hlc.SourceIsStrictlyIncreasing` | crates/doc/src/registry.rs:54-76 | for any list of wall-clock readings, regressions and counter carry included, a later emitted string is greater than an earlier one, until 10^13 ms |
| `Hlc.HlcClock.Next` | crates/doc/src/registry.rs:63-75 | one call advances the stamp strictly, never to a millisecond below the reading, to the reading itself with counter 0 when the reading is ahead, and returns the encoding of the new stamp |
| `Hlc.TickIsTheLeast` | crates/doc/src/registry.rs:63-75 | a tick is the least stamp after the last one that is not before the reading: later than the last, never below the reading, and no other stamp in counter range with both properties comes before it |
| `Hlc.SourceFollowsTheWallClock` | crates/doc/src/registry.rs:54-76 | over any list of readings every emitted millisecond is at least the largest of the start and the readings so far, and ahead of it by at most one for each million ticks |
| `Hlc.EncodedForm` | crates/doc/src/registry.rs:39-44 | a stamp in range is written as 13 digits, a dash, 6 digits, a dash and the device, which read back as its numbers |
| `RegistryCore.NewestClock` | edge/src/registry-core.ts:158-166 | the running maximum is the largest of the tombstone clock and the field clocks, and none exactly when there is no clock at all |
| `RegistryCore.WriteFields` | edge/src/registry-core.ts:137-151 | the field loop writes exactly the fields whose clock is strictly newer, deletes those set to null, keeps every other field and clock, and reports whether any write won |
| `RegistryCore.ApplyOp` | edge/src/registry-core.ts:106-156 | the code with its early returns computes the merge rule `Apply`, about which the laws below are proved |
| `RegistryCore.ApplyKeeps` | edge/src/registry-core.ts:106-156 | one op keeps a row well formed (a tombstone has a clock and nothing else, every live field has a clock), never loses the row, changes it exactly when it says so, and never lowers its newest clock |
| `RegistryCore.HistoryKeeps` | edge/src/registry-core.ts:106-166 | over every op sequence the same holds, and the newest clock after any prefix is at most the one at the end |
| `RegistryLaws.NewestWritesWin` | edge/src/registry-core.ts:126-156 | after any delete-free history on a live row each field and its clock are those of the write with the largest clock, the starting row included |
| `RegistryLaws.OrderIndependence` | edge/src/registry-core.ts:126-156 | two delete-free histories made of the same ops, reordered or repeated, give the same row, provided equal clocks on a field carry equal values |
| `RegistryLaws.NoOpIffAbsorbed` | edge/src/registry-core.ts:94-104 | an op changes nothing if and only if the row already reflects it |
| `RegistryLaws.ReplayIsHarmless` | edge/src/registry-core.ts:94-104 | an applied op whose row exists changes nothing when it arrives again after any history that does not revive the row |
| `RegistryLaws.OnlyUpsertsMakeRowsLive` | edge/src/registry-core.ts:97-104 | updates and deletes alone never make a missing or deleted row live, in any number and order |
| `RegistryLaws.TombstonesHold` | edge/src/registry-core.ts:97-104 | a row stays deleted through any history whose upserts are no newer than its tombstone, and the tombstone clock never goes back |
| `RegistryLaws.PlainOpsAreGrounded` | edge/src/registry-core.ts:106-108 | every op without clock overrides and with a non-empty set meets the condition under which replay is harmless |
| `RegistryLaws.ReplayAfterRevivalLands` | edge/src/registry-core.ts:132-135 | the exception is real: after delete and revival an old upsert writes a field the revived row does not have |
| `RegistryLaws.DeleteCommutesIff` | edge/src/registry-core.ts:109-135 | a delete and a write of one live row commute if and only if the delete loses outright, or beats every field the write wins and is not itself beaten as a tombstone |
| `RegistryRoom.StoreAllEffect` | edge/src/registry-room.ts:370-387 | storing a batch op by op stamps exactly the changed rows with the new sequence number, loses no row, and changes the table if and only if some op changed a row |
| `RegistryRoom.CheckBatch` | edge/src/registry-room.ts:349-368 | a batch is refused if it is malformed, empty, over 500 ops, or holds one op that breaks a pattern, has a set it should not have or lacks one it should, or is over 16384 characters; and with which code |
| `RegistrySize.ClockSizeIs` | edge/src/registry-core.ts:85 | what is counted for a clock is the length of the one string it stands for |
| `RegistrySize.SeedOutgrowsItsOps` | edge/src/registry-core.ts:85 | sizes are the lengths of the ops' JSON text: for any two fields and any two values of 8192 to 15000 characters, an upsert of one and an update of the other are both within the limit, and the seed op of the row they make is not |
| `RegistrySize.OpSizeIsTextLength` | edge/src/registry-core.ts:85 | what is counted for a write of one field, with and without a clock of its own, and for a delete is the length of the JSON text written out here |
| `RegistrySize.EntryAdds` | edge/src/registry-core.ts:85 | every further entry of an object adds its own length and a comma |
| `RegistrySize.PushSizeIs` | edge/src/registry-room.ts:262 | what is counted for a push frame is the text around its ops, each op, and a comma between any two |
| `RegistryRoom.ApplyTouched` | edge/src/registry-room.ts:370-383 | the loop with its cache of touched rows yields exactly the rows, and the count, of storing the ops one by one in the table |
| `RegistryRoom.PushEffect` | edge/src/registry-room.ts:342-404 | `seq` rises by exactly one if and only if some op changed a row, every row stays at or below it, the floor is untouched, and a rejected batch leaves the table alone |
| `RegistryRoom.PushStoresAll` | edge/src/registry-room.ts:370-388 | after an accepted batch the stored table is the ops stored one by one, even when none changed anything |
| `RegistryRoom.StoreAllSettles` | edge/src/registry-room.ts:370-388 | after a batch with one op per row, replaying any of its ops over the stored table changes nothing |
| `RegistryRoom.PushTwiceIsOnce` | edge/src/registry-room.ts:342-404 | pushing a one-op-per-row batch a second time changes neither rows nor `seq` |
| `RegistryRoom.PurgeEffect` | edge/src/registry-room.ts:443-458 | the purge removes exactly the rows that are tombstones with a clock below the horizon, keeps every other row as it is, and sets the floor to the largest number it removed or leaves it, whichever is higher |
| `RegistryRoom.Room.HandleHello` | edge/src/registry-room.ts:300-323 | the reply goes to that socket only, and is full exactly for no cursor, a cursor below the floor, or one ahead of the server |
| `RegistryRoom.Room.HandlePush` | edge/src/registry-room.ts:325-404 | every ready socket hears the merged rows before the sender hears its ack; a socket without a hello gets an error and the table is untouched |
| `RegistryRoom.Room.ApplyPushBatch` | edge/src/registry-room.ts:342-404 | table, outcome and frames sent are those of the push specification, all or nothing |
| `RegistryRoom.Room.BroadcastRows` | edge/src/registry-room.ts:389-402 | the frame is appended once to every ready socket and to no other |
| `RegistryRoom.Room.CollectGarbage` | edge/src/registry-room.ts:443-458 | the two-pass purge computes the purge specification, and does nothing when nothing expired |
| `RegistryDoc.CutIsFaithful` | crates/doc/src/registry.rs:543-573 | the batches concatenate to the ops queued, none is empty or over 400 ops, none is in flight |
| `RegistryDoc.CutNamesAreFresh` | crates/doc/src/registry.rs:561-570 | every batch is named by a tick later than the clock and no name is used twice |
| `RegistryDoc.BatchIdIsUnique` | crates/doc/src/registry.rs:561-563 | two batches of one device with one name were named by the same tick |
| `RegistryDoc.RetiringTheHeadIsInvisible` | crates/doc/src/registry.rs:491-504 | once its merged rows are in place, taking the oldest one-op-per-row batch out of the queue leaves every overlay read unchanged, whatever is queued behind it |
| `RegistryDoc.RetiringAnywhereIsInvisible` | crates/doc/src/registry.rs:491-504 | the same for a batch anywhere in the queue, provided replaying the earlier batches does not bring a tombstone of that row back |
| `RegistryDoc.RegistryReplica.EnqueueOps` | crates/doc/src/registry.rs:543-573 | the loop over the shrinking list appends exactly the specified batches and advances the clock once per batch |
| `RegistryDoc.RegistryReplica.ApplyStateFrame` | crates/doc/src/registry.rs:417-478 | the three shapes of a state frame: merge, keep and re-seed, replace and re-seed what is missing |
| `RegistryDoc.RegistryReplica.ApplyRowsFrame` | crates/doc/src/registry.rs:481-489 | rows are replaced wholesale and the cursor never goes back |
| `RegistryDoc.RegistryReplica.Ack` | crates/doc/src/registry.rs:492-504 | exactly the batches of that name leave the queue and the cursor never goes back |
| `RegistryDoc.RegistryReplica.TakePushable` | crates/doc/src/registry.rs:507-516 | returns, in order, exactly the batches not in flight, and marks every batch |
| `RegistryDoc.RegistryReplica.MarkDisconnected` | crates/doc/src/registry.rs:519-523 | every batch becomes pushable again and nothing else changes |
| `RegistryDoc.RegistryReplica.OverlayRow` | crates/doc/src/registry.rs:606-623 | the nested loops compute the authoritative row with every queued op at it replayed in order, tombstones hidden; that this is what the server will show, and that a local write is seen at once, is `RegistryReads.OverlayIsWhatWillBeStored` and `RegistryReads.UpsertIsSeen` |
| `RegistrySync.HelloCompletes` | edge/src/registry-room.ts:300-323 | applied to any mirror that is good at the cursor it sent, the reply leaves it holding every stored row and nothing else live |
| `RegistrySync.GoodAfterPurge` | edge/src/registry-room.ts:443-458 | a purge invalidates no mirror: one that may have missed a deleted row is left below the floor |
| `RegistrySync.FinalAfterPush` | edge/src/registry-room.ts:389-403 | delivering a push's broadcast to a complete mirror leaves it complete for the new table |
| `RegistrySync.RunsKeepInv` | edge/src/registry-room.ts:300-458 | the protocol invariant (every prefix of every queue leaves a good mirror, the whole queue a complete one, every ack names a batch it retires and follows its rows, batches in flight are in order what the link carries and what the room has refused) holds in every run of dials, hellos, pushes of whatever size, refusals, closed sockets, deliveries, cuts, local writes and purges by any number of replicas |
| `RegistrySync.CursorAgreement` | crates/doc/src/registry.rs:414-504 | in every run a replica holds every stored row at or below its cursor exactly as stored and, from the floor on, shows no live row the server dropped |
| `RegistrySync.InFlightCompletes` | edge/src/registry-room.ts:389-403 | in every run, delivering what is in flight to a connected replica gives exactly the server's live rows and its sequence number |
| `RegistrySync.QuietReplicasAgree` | crates/doc/src/registry.rs:606-623 | in every run, a connected replica with nothing queued or in flight reads exactly the server's live rows |
| `RegistrySync.AcksAreInvisible` | edge/src/registry-room.ts:392-396 | in every run, an ack takes out of the queue exactly the batch it names and does not move the cursor; every batch queued before that one is one the room refuses, so with none refused it is the oldest; and each row that none of those writes reads the same before and after |
| `RegistrySync.LocalWritesSurvive` | crates/doc/src/registry.rs:507-523 | in every run, each batch of local writes is still queued, op for op, or the server has accepted the frame that carries it; one that the room refuses stays queued for good |
| `RegistrySync.ApplyStateKeeps` | crates/doc/src/registry.rs:417-478 | a state frame changes the mirror as specified and only ever appends fresh, uniquely named batches to the queue |
| `RegistryFlight.RetainAllBut` | crates/doc/src/registry.rs:492-504 | an ack removes the batch it names and no other, because names never repeat |
| `RegistryFlight.MatchesHead` | crates/doc/src/registry.rs:491-516 | the first batch an ack will come for is the first in flight that was not refused, and taking it out leaves the rest of the queue in step with the link |
| `RegistryFlight.MatchesPushed` | crates/doc/src/registry.rs:507-516 | pushing the queue puts what was not in flight, and nothing else, behind what the link carries |
| `RegistryReads.OverlayIsWhatWillBeStored` | crates/doc/src/registry.rs:604-623 | with any queue of batches the room accepts, the row read is, up to its number, the live row the server will show once the queue is pushed onto a table that agrees with the mirror on that row |
| `RegistryReads.ReadsAreAhead` | crates/doc/src/registry.rs:604-623 | in every run a connected replica with nothing coming in reads, of every row the server stores or it does not hold, what the server will show once its queue is pushed |
| `RegistryReads.UpsertIsSeen` | crates/doc/src/registry.rs:575-585 | after a local upsert newer than the row, whatever else is queued, the row read is live, has every field as written and keeps the others |
| `RegistryReads.UpdateIsSeen` | crates/doc/src/registry.rs:575-585 | after a newer local update a row that was shown is shown with every field as written and the others kept; one that was not shown still is not |
| `RegistryReads.DeleteIsSeen` | crates/doc/src/registry.rs:587-600 | after a newer local delete the row is not shown |
| `RegistryReads.OtherRowsReadTheSame` | crates/doc/src/registry.rs:606-623 | a local write changes no read of a row it does not write |
| `RegistryReads.HelloIsAnswered` | edge/src/registry-room.ts:300-323 | the answer names the server's number and floor and, if it is not full, holds exactly the rows stamped after the cursor; it is full exactly for no cursor, one below the floor, or one ahead of the server |
| `RegistryReads.ReconnectIsIncremental` | edge/src/registry-room.ts:300-323 | in every run a replica with a cursor is sent just the rows stamped after it, unless a purge has passed it |
| `RegistryReads.PushIsAnswered` | edge/src/registry-room.ts:325-404 | the sender hears `bad_push` or `invalid_op` under conditions written out on the frame, and otherwise an ack with its batch name, the table's number and how many of its ops changed the row they found |
| `RegistryReads.PushIsHeard` | edge/src/registry-room.ts:389-402 | everyone ready hears exactly the rows that are not as they were, as they now are, in one frame with the next number, or nothing if there are none |
| `RegistryReads.PushingSendsTheRest` | crates/sync/src/registry.rs:960-973 | a push sends every batch not in flight and leaves the whole queue in flight, in its order |
| `RegistryReads.StateFrameStartsPushing` | crates/sync/src/registry.rs:760-794 | the state frame ends the greeting, and everything then queued, seeds included, is sent |
| `RegistryReads.StateOutcomeIs` | crates/doc/src/registry.rs:417-478 | a state frame sets number and floor; it is a delta unless full, and re-seeds exactly if the server is behind or a held row is missing from it |
| `RegistryReads.EveryMutationIsCounted` | crates/doc/src/registry.rs:364-366 | the change counter never goes back and moves with every change of the mirror or the queue |
| `RegistryReads.BatchesAreFull` | crates/doc/src/registry.rs:543-573 | of the batches a list of ops is cut into only the last holds fewer than 400 |
| `RegistryReads.PurgeIsByAge` | edge/src/registry-room.ts:443-458 | with clocks as the source writes them, a row is gone after the purge exactly if it is a tombstone made before the horizon's millisecond |
| `RegistryProgress.EverySessionCanFinish` | crates/sync/src/registry.rs:796-830 | from every world of every run, a session past its greeting whose queue the room does not refuse can be finished as it stands, by a nudge, taking up and delivering alone: then the queue is empty, every batch ever written was accepted, and every read is the server's |
| `RegistryProgress.EveryReplicaCanReconnect` | crates/sync/src/registry.rs:709-794 | from every world of every run, whatever was lost, a cut, a dial, the greeting and what it sends catch a replica up in the same sense, if nothing it then has queued, seeds included, is refused |
| `RegistryProgress.UnlessPurgedNothingIsSeeded` | crates/doc/src/registry.rs:430-451 | a replica whose cursor no purge has passed queues nothing new when it reconnects |
| `RegistryProgress.PushesAreTaken` | edge/src/registry-room.ts:258-334 | a push frame over a million characters ends the session and changes nothing, one before the hello is answered with an error, and any other does what the push does and is answered after its broadcast |
| `RegistryProgress.OldTombstonesGo` | edge/src/registry-room.ts:443-458 | the alarm, as a step of the world, leaves every row but tombstones with a clock below the horizon |
| `RegistryProgress.WritesAreQueued` | crates/doc/src/registry.rs:543-573 | a local write, as a step of the world, is queued behind everything else, op for op, and changes nothing on the link |
| `RegistryProgress.CutsLoseNothing` | crates/doc/src/registry.rs:519-523 | a cut link leaves mirror and queue as they are, with every batch to be sent again |
| `RegistryProgress.CursorFollows` | crates/doc/src/registry.rs:481-504 | a rows frame or an ack moves the cursor up to its number and never back |
| `RegistryProgress.OnlyNewReplicasAskForEverything` | crates/sync/src/registry.rs:716-730 | in every run a hello goes out without a cursor exactly from a replica that has never seen or written anything |
| `RegistryReseed.OverlayPredictsTheServer` | crates/doc/src/registry.rs:604-623 | pushing a queue of batches onto a table gives each row, up to its sequence number, what replaying over it the batches that reach the table shows; a batch with an op over the limit is passed over, and nothing is taken up from a frame over 1000000 characters on |
| `RegistryReseed.SeedRestores` | crates/doc/src/registry.rs:252-284 | on a table without the row the seed op writes all live fields with their original clocks, or the tombstone with its clock |
| `RegistryReseed.RestoredIsLosslessIff` | edge/src/registry-core.ts:170-184 | the trip through a seed op is lossless if and only if the row is a tombstone, or has no cleared field and no old tombstone clock |
| `RegistryReseed.SeedingAgainChangesNothing` | crates/doc/src/registry.rs:430-451 | seeding a table that already holds the rows leaves it alone, `seq` included, through any batches, refused ones included |
| `RegistryReseed.WipedServerIsRebuilt` | crates/doc/src/registry.rs:433-451 | after a wipe, greeting the empty server and pushing the queue brings back a row without queued ops, as its seed restores it, if and only if its seed arrives, that is, is in a batch with no op over the limit and none of the frames up to there is over the budget; and no other row appears |
| `RegistryReseed.SeedOpsAreSendableIff` | crates/doc/src/registry.rs:254-284 | seeding a table yields at most one op per row, each of which passes the room's checks if and only if it is within the size limit |
| `RegistryReseed.WipedServerIsRebuiltIff` | edge/src/registry-core.ts:85 | with nothing else queued, the whole table comes back if and only if every row's seed op is within the limit and every frame of seeds within the budget |
| `RegistryReseed.EveryReplicaCanRebuild` | crates/doc/src/registry.rs:433-451 | both statements, that for one row and that for the whole table, from the state of any replica with a cursor in any run |
| `RegistryReseed.PurgedRowsComeBack` | crates/doc/src/registry.rs:452-478 | a full answer does not make a purged delete final: of the rows without queued ops that the server lacks, exactly those the replica holds and whose seeds arrive are back on the table, live ones live |
| `ChatLog.AppendEffect` | edge/src/chat-log.ts:61-90 | a batch still stored is acknowledged with its original number and changes nothing; any other of legal size becomes the next row; a pruned batch is no longer recognised |
| `ChatLog.AppendTwiceIsOnce` | edge/src/chat-log.ts:56-60 | an immediate retry gets the same number and stores nothing |
| `ChatLog.RowsAfterIsTail` | edge/src/chat-log.ts:92-114 | reading past a cursor gives the stored tail from the cursor or the floor on, in order |
| `ChatLog.CommitEffect` | edge/src/chat-log.ts:119-149 | a commit succeeds if and only if it is non-empty, not behind the floor and not ahead of the head; it then drops exactly the covered rows |
| `ChatLog.ChatStore.AppendRow` | edge/src/chat-log.ts:61-90 | the store's append computes the specification the laws are about |
| `ChatLog.ChatStore.ReadAfter` | edge/src/chat-log.ts:94-114 | the cursor loop yields the rows past `after`, one device left out if asked, in order |
| `ChatLog.ChatStore.CommitCheckpoint` | edge/src/chat-log.ts:129-149 | the store's commit computes the specification, with its error order |
| `ChatLaws.PlanKeeps` | crates/sync/src/chat_client.rs:158-185 | whatever the decision table picks, the cursor it sets claims only rows the document holds or the planned checkpoint will bring; what it picks is `ChatClient.PlanIs` |
| `ChatLaws.WalkKeeps` | crates/sync/src/chat_client.rs:1391-1409 | the contiguity rule moves an honest cursor to one that claims at most the row being handled besides |
| `ChatLaws.LandKeeps` | crates/engine/src/chat2_host.rs:77-102 | importing the row that is landing makes the cursor honest again and persists an honest pair |
| `ChatLaws.RunsKeepInv` | crates/sync/src/chat_client.rs:807-1060 | the relay invariant holds in every run of writes, dials, deliveries, row imports, fetches, checkpoint imports, cuts, retries, captures whose three reads fall at any moments, and commits arriving late or repeatedly, that meets the condition of `ChatLaws.ClaimsHoldIff`; it is about safety, and what a client asks for and reaches is `ChatClient.NoGapIsLeft`, `ChatFollowing.FollowersAreCurrent` and `ChatProgress.EveryClientCanCatchUp` |
| `ChatLaws.ClaimsHoldIff` | edge/src/chat-log.ts:137 | for every run: the current checkpoint holds every row it claims all along if and only if each commit at the floor (`seqCovered == seqFloor` with a checkpoint there) brings the rows it claims, and each commit past it brings the row that was landing when its cursor was read, if it claims that row; no other commit can break it |
| `ChatLaws.HoldsItsClaimIff` | crates/engine/src/doc_host.rs:1694-1712 | a post past the floor holds every row it claims if and only if it holds the one whose number the cursor had walked to but whose bytes were not yet imported when the cursor was read, or there was none, or it is past the cursor |
| `ChatLaws.CommitLosesNothingIff` | edge/src/chat-log.ts:137-143 | what any commit costs, at the floor or past it: every accepted update is still held by the room if and only if the new blob has everything of the rows it replaces that no row left in the table carries as well |
| `ChatLaws.StrictIsGuarded` | edge/src/chat-log.ts:137-138 | a check the server can make, refusing commits at the floor once there is a checkpoint, gives the condition if no client reads the cursor of a capture while a row is landing |
| `ChatLaws.CarefulIsGuarded` | crates/engine/src/doc_host.rs:1694-1724 | a discipline clients can keep gives it with the server as it is: no capture reads the cursor between raising it and importing the checkpoint, nor between walking it and importing the row |
| `ChatLaws.NothingAcceptedIsLost` | edge/src/chat-log.ts:119-149 | in every run that meets the condition of `ChatLaws.ClaimsHoldIff`, each accepted update is in the current checkpoint or in a stored row, whatever was pruned |
| `ChatLaws.StrictRunsLoseNothing` | edge/src/chat-log.ts:119-149 | in every run whose commits move the floor, the first one excepted, and whose captures read no cursor while a row is landing, the same holds |
| `ChatLaws.CursorsAreHonest` | crates/sync/src/chat_client.rs:106-118 | in every run that meets that condition, the document holds every row up to its cursor, but for the row that is landing, and except while a checkpoint it was raised to is not yet imported; the persisted pair of document and cursor has no exception |
| `ChatLaws.CatchUpCompletes` | crates/sync/src/chat_client.rs:897-1060 | in every run that meets that condition, at the end of a backfill whose cursor was not behind the floor the document holds every update accepted up to the reported head, own rows left out or not |
| `ChatLaws.PlanReachesTheFloor` | crates/sync/src/chat_client.rs:158-185 | a plan made from the current state never asks for rows from behind the floor |
| `ChatLaws.BackfillIsWholeIff` | edge/src/chat-room.ts:391-403 | the answer to a rows request is every later accepted row if and only if its cursor is not behind the floor |
| `ChatLaws.SkippedCheckpointsAreHeld` | crates/engine/src/chat2_host.rs:113-146 | in every run a client told to fetch rows only already holds all of the checkpoint it skips, a seed that covers no row included; an empty or unreadable frontier never lets it skip |
| `ChatClient.PlanIs` | crates/sync/src/chat_client.rs:158-185 | the checkpoint is planned exactly if there is one the document does not contain, and rows are then asked for from where it ends; otherwise from the cursor, or zero if that is past the head, or from where a contained checkpoint ends if that is further |
| `ChatClient.RowsOnlyIff` | crates/engine/src/chat2_host.rs:113-146 | rows alone are asked for exactly if the room has no checkpoint or the document holds all that its readable, non-empty frontier names |
| `ChatClient.PlannedRowsAreWhole` | crates/sync/src/chat_client.rs:158-185 | the answer to the planned request is every row after the planned number; with no checkpoint and a cursor past the head it is the whole log |
| `ChatClient.StateIsAnswered` | crates/sync/src/chat_client.rs:877-953 | the state frame is answered with one rows request from the planned cursor that leaves own rows out only after an earlier backfill, then every queued push in order; a cursor above the checkpoint is taken back once per client, and all repairs are available again |
| `ChatClient.RowWalks` | crates/sync/src/chat_client.rs:1384-1410 | a row with the next number moves the cursor, an old one does not, and a later one only flags a gap |
| `ChatClient.AckWalks` | crates/sync/src/chat_client.rs:1413-1443 | an ack walks the cursor likewise, takes exactly the batch it names out of the queue, and persists the document with the cursor |
| `ChatClient.ErrorsRetire` | crates/sync/src/chat_client.rs:1462-1480 | a batch is retired exactly by the three permanent verdicts that name it |
| `ChatClient.RowLands` | crates/sync/src/chat_client.rs:1331-1356 | once a row has landed the document has it and is persisted with the cursor; in a steady session a flagged gap is then asked for by a request after the cursor that leaves nothing out, or after three of those the client hangs up; either way none is left flagged |
| `ChatClient.BackfillEnds` | crates/sync/src/chat_client.rs:1042-1062 | the end of the backfill makes the session steady, and a gap flagged on the way is asked for then |
| `ChatClient.NoGapIsLeft` | crates/sync/src/chat_client.rs:1331-1356 | in every run a steady client with no row landing has no gap it has not asked about |
| `ChatClient.RepairFillsTheGap` | crates/sync/src/chat_client.rs:1331-1356 | the answer to a repair request brings the cursor to the head of the log and every row after it into the document, with no gap on the way |
| `ChatClient.RowsAnswerIs` | edge/src/chat-room.ts:391-403 | a rows request is answered with exactly the stored rows after it, own ones left out if asked, in order, and then the head |
| `ChatClient.PushIsAnswered` | edge/src/chat-room.ts:405-437 | the sender of a push hears the number of a stored row that carries its batch, or why it was refused: a name empty or over 128 characters, nothing in it, or over a mebibyte |
| `ChatClient.PushIsHeard` | edge/src/chat-room.ts:437-454 | every other socket that has said hello hears the row a push added, if it added one, and nobody else hears anything |
| `ChatFollowing.FollowersAreCurrent` | crates/sync/src/chat_client.rs:807-1140 | convergence: in every run that meets the condition of `ChatLaws.ClaimsHoldIff`, a steady client that had one complete backfill in its session and has handled everything sent to it holds every update the room has accepted |
| `ChatProgress.EveryClientCanCatchUp` | crates/sync/src/chat_client.rs:807-1140 | from every world of every run in which the batches it queues have names, steps of one client's own sessions bring it to rest, steady with nothing to send, handle or ask for; all it ever wrote is then accepted, or too long to be queued, or empty or of a name the room refuses, and under the same condition on commits it holds every accepted update |
| `ChatProgress.NudgeSendsTheQueue` | crates/sync/src/chat_client.rs:1357-1379 | a nudge of a steady client sends the whole queue again, in order |
| `ChatProgress.WritesAreQueued` | crates/sync/src/chat_client.rs:521-548 | a local update is in the document at once, and queued behind everything else unless it is over the client's cap of a mebibyte less 4096 bytes |
| `ChatConservation.LocalUpdatesSurvive` | crates/sync/src/chat_client.rs:1357-1379 | in every run, whatever checkpoints are posted and committed, a local update is still queued at its author, accepted by the room, too long for the client to queue, or empty or of a name the room refuses |
| `ChatConservation.NothingTooLargeIsSent` | crates/sync/src/chat_client.rs:58-66 | in every run no push is over the client's own cap, so the room never answers one with `too_large` |
| `ChatConservation.DropBatchLeaves` | crates/sync/src/chat_client.rs:1411-1416 | an answer to a batch removes that batch from the queue and no other |
| `ChatRoom.PushAnswersTheSender` | edge/src/chat-room.ts:405-456 | on the wire the sender of a push hears one frame more, the answer by which the handler below is specified |
| `ChatRoom.PushRelaysToOthers` | edge/src/chat-room.ts:437-454 | and of every other socket exactly the ready ones hear a new row, a repeated one nobody |
| `ChatRoom.ChatRoomObject.HandleHello` | edge/src/chat-room.ts:364-389 | the socket becomes ready and gets the current state, nobody else hears anything |
| `ChatRoom.ChatRoomObject.HandleRowsReq` | edge/src/chat-room.ts:391-403 | after a hello, the frames of the protocol step's answer: the stored rows past the cursor in order and then the head; before it, an error; the log is untouched |
| `ChatRoom.ChatRoomObject.HandlePush` | edge/src/chat-room.ts:405-456 | log, answer and relays are those by which the protocol step is defined; a malformed push changes nothing but is answered with its batch id |
| `ChatRoom.ChatRoomObject.RelayToOthers` | edge/src/chat-room.ts:439-453 | the row is appended once to every ready socket but the sender's |
| `ChatRoom.ChatSink.ApplyRow` | crates/engine/src/chat2_host.rs:77-102 | document and persisted pair after a row has landed are those of the client step, under the cursor it walked to |
| `ChatRoom.ChatSink.ApplyCheckpoint` | crates/engine/src/chat2_host.rs:104-111 | document and persisted pair after an import are those of the client step, under the number the state frame gave |
| `ChatRoom.ChatSink.Contains` | crates/engine/src/chat2_host.rs:113-146 | a frontier counts as contained only if it decodes, is not empty and is included in the document |
| `ChatLimits.PruningInBetweenIsMissed` | edge/src/chat-room.ts:391-403 | a world reached without any commit at the floor: a checkpoint commits between state frame and rows request, and the client ends steady, with nothing in flight and no gap flagged, without an accepted update |
| `ChatLimits.CapturingTooEarlyLosesAnUpdate` | crates/engine/src/doc_host.rs:1694-1724 | a world reached without any commit at the floor, in which a client that is handling no row captures while its own fetch is outstanding and committing that, at the floor, loses an accepted update |
| `ChatLimits.NoCheckOnTheNumberSuffices` | crates/sync/src/chat_client.rs:1391-1409 | no check of the server on `seqCovered` makes it safe: in one world reached without any commit at the floor the same client has posted two checkpoints of one number, not raised for either, both go through past the floor, and one keeps every accepted update while the other, whose cursor was read while a row was landing, loses one |
| `CheckpointFetch.FetchCheckpoint` | crates/engine/src/chat2_host.rs:174-251 | the loop with its carried bytes and stamp computes the four-attempt specification |
| `CheckpointFetch.FetchNeverSplices` | crates/engine/src/chat2_host.rs:200-230 | whatever is dropped or replaced between attempts, returned bytes are one committed payload, whole, provided no two payloads share a stamp |
| `CheckpointFetch.SharedStampSplicesIff` | edge/src/chat-log.ts:137 | for two payloads of one stamp, some pattern of drops and re-commits makes a fetch return bytes that are neither if and only if they differ in two places or more, or, when their lengths differ, anywhere within the shorter |
| `CheckpointFetch.ResumeCompletesIff` | crates/engine/src/chat2_host.rs:193-246 | with one checkpoint current the first undropped attempt completes the download if and only if bytes were still missing; otherwise the range starts past the end and the fetch fails |
| `CheckpointFetch.UnansweredAreSkipped` | crates/engine/src/chat2_host.rs:193-198 | an attempt that gets no answer changes nothing: the rest goes on from the same bytes |
| `CheckpointFetch.FetchCompletesIff` | crates/engine/src/chat2_host.rs:193-246 | with one checkpoint throughout, four attempts of which any may stay unanswered complete exactly if the first answered one that is not dropped finds something left to fetch, and then with the whole payload |
| `CheckpointFetch.FourAttemptsAreAll` | crates/engine/src/chat2_host.rs:187-250 | four unanswered attempts end the fetch with the exhausted error, whatever would have come after |
| `CheckpointFetch.FetchAfterReplacement` | crates/engine/src/chat2_host.rs:206-216 | when an answer shows a replaced checkpoint the bytes so far are discarded and the attempts after it fetch the new one from its start |
| `CheckpointFetch.NothingLeftToFetch` | crates/engine/src/chat2_host.rs:217-240 | the one failure a stable checkpoint allows before the attempts run out: a drop after the last byte makes the next range end past it |
| `FetchInRuns.NumbersNameCheckpoints` | edge/src/chat-log.ts:129-149 | in every run whose commits move the floor, two checkpoints of one covered number are one checkpoint |
| `FetchInRuns.FetchReturnsACheckpoint` | crates/engine/src/chat2_host.rs:174-251 | a fetch made against such a run, whatever is dropped or committed between its attempts, returns the whole payload of a checkpoint that was current at one of them |
| `TranscriptDelta.TryTextAppend` | crates/doc/src/transcript_delta.rs:78-111 | returns an append exactly when one text part, and nothing else in the entry, grew at its end, and then the suffix and the new length |
| `TranscriptDelta.DiffTranscript` | crates/doc/src/transcript_delta.rs:117-174 | the loops compute the frame the laws are about, with the reset fallback, whose exact condition is `TranscriptFrames.ResetIff` |
| `TranscriptFrames.ResetIff` | crates/doc/src/transcript_delta.rs:162-164 | the frame is a reset exactly if there are more than four entries and at least half are new, moved, or changed other than by one text growing at its end |
| `TranscriptFrames.DeltaCarries` | crates/doc/src/transcript_delta.rs:117-174 | a delta upserts exactly those entries, each after the one before it, appends exactly the growth of each other changed entry, removes exactly the ids that are gone, and gives the count |
| `TranscriptFrames.StreamingSendsOneAppend` | crates/doc/src/transcript_delta.rs:1-10 | text streamed onto the last part of one entry, the rest untouched, is sent as one append of just that text, however long the transcript |
| `TranscriptDelta.Held.Apply` | crates/doc/src/transcript_delta.rs:184-249 | the in-place patch succeeds exactly when the specification does, and then holds its result |
| `TranscriptLaws.PlaceEffect` | crates/doc/src/transcript_delta.rs:204-217 | an upsert puts its entry right after its anchor, replacing an older copy, and moves no two other entries past each other |
| `TranscriptLaws.RoundTripIff` | crates/doc/src/transcript_delta.rs:113-249 | on distinct ids, patching `prev` with the diff to `next` gives `next` if and only if the frame is a reset, or the entries left in place keep their order and each append finds the part that grew |
| `TranscriptLaws.RoundTrip` | crates/doc/src/transcript_delta.rs:113-116 | common entries in the same relative order and distinct text ids are enough |
| `TranscriptLaws.TheTripwireNeverFires` | crates/doc/src/transcript_delta.rs:242-247 | on distinct entry ids, and distinct text-part ids inside each previous entry, the patch always succeeds with the right entries and the right count, so a wrong order is never noticed |
| `TranscriptLaws.CrossingEntriesArePatchedWrong` | crates/doc/src/transcript_delta.rs:117-249 | from r,z,u,k to u,k,r,z the patch succeeds and yields u,z,k,r |
| `TranscriptLaws.SubscriberIsCurrentIff` | crates/doc/src/transcript_delta.rs:1-10 | a subscriber fed a reset and then one diff per state, all with distinct ids, holds the latest transcript all along if and only if every diff round-trips |
| `TranscriptLaws.FoldedEntriesHaveDistinctTexts` | crates/doc/src/parts.rs:243-257 | entries made by the event fold meet the text-id condition |
| `MessageParts.Accumulator.FoldEvent` | crates/doc/src/parts.rs:243-421 | the in-place fold, scans and loops included, computes the specified list; what that list then says of tools, inputs, texts and chips is the `FoldEffects` rows |
| `MessageParts.FoldEvolves` | crates/doc/src/schema.rs:847-848 | every event but a turn start only adds parts at the end, grows the trailing text, or updates tool and input fields; earlier text never changes |
| `FoldEffects.ResultsResolve` | crates/doc/src/parts.rs:288-323 | after a result every tool of its id is resolved with that verdict and those statistics, and nothing else has changed |
| `FoldEffects.AnswersResolve` | crates/doc/src/parts.rs:338-350 | after an answer every input of its request is resolved and nothing else has changed |
| `FoldEffects.CallsAreHeld` | crates/doc/src/parts.rs:262-287 | after a call the one tool of its id has the new call and is otherwise as it was, or is a new unresolved one at the end |
| `FoldEffects.RequestsAreShown` | crates/doc/src/parts.rs:324-337 | a request is shown once, unresolved, under a name of its own, however often it comes |
| `FoldEffects.TextTrails` | crates/doc/src/parts.rs:243-257 | a text delta extends a trailing text part and starts a new one after anything else, named by its place |
| `FoldEffects.ErrorsAreShown` | crates/doc/src/parts.rs:351-366 | an error of the agent or of the turn's end becomes a part of its own |
| `FoldEffects.ChipsFollow` | crates/doc/src/parts.rs:374-411 | a subagent's end leaves its chip broken exactly if it errored, a message to it revives it, and any other sign of life only moves an unsettled chip |
| `FoldEffects.TurnTellsItsTools` | crates/doc/src/parts.rs:243-421 | over a whole turn: there is one tool for each id called, it has the last call, it is resolved exactly if a result for it came after a call of it, and its verdict and statistics are those of the last such result |
| `FoldEffects.TurnTellsItsInputs` | crates/doc/src/parts.rs:324-350 | over a whole turn: there is one input for each request, resolved exactly if an answer came after it |
| `FoldEffects.TurnsStartEmpty` | crates/doc/src/parts.rs:243-247 | a session start and a steering empty the list; a clean end of the turn and what is not rendered leave it as it is |
| `FoldEffects.OnlyTheLastTurnCounts` | crates/doc/src/parts.rs:243-247 | what came before the last turn start leaves no trace |
| `MessageParts.TurnEvolves` | crates/doc/src/schema.rs:847-848 | the same through a whole turn: earlier parts stay in place and earlier text never changes |
| `MessageParts.FoldAllIsFolded` | crates/doc/src/parts.rs:243-421 | after any events a text part is named after its place, a failed tool is resolved, and outputs and inline diffs are absent |
| `MessageParts.TextIdsAreDistinct` | crates/doc/src/parts.rs:248-257 | no two text parts of a folded list share an id, whatever the agent sends |
| `MessageParts.TextIsConserved` | crates/doc/src/parts.rs:243-257 | within one turn the text of the parts is every streamed delta once, in the order it came |
| `MessageParts.ToolAndInputIdsAreUnique` | crates/doc/src/parts.rs:262-337 | after any events no two tool parts and no two inputs share an id |
| `MessageParts.RepeatedEventIsIdempotent` | crates/doc/src/parts.rs:238-241 | an event repeated at once changes nothing the second time, unless it carries text or an error |
| `MessageParts.SettledChipsLast` | crates/doc/src/parts.rs:374-411 | through the rest of a turn a settled subagent chip stays settled, whatever else is tagged with it, unless a new message revives the subagent |
| `MessageParts.ResolutionsLast` | crates/doc/src/parts.rs:288-350 | a resolved tool or input stays in place and resolved through the rest of the turn |
| `SplitParts.GuardIsUnreachable` | crates/doc/src/parts.rs:543-550 | on UTF-8 text the cut always moves forward by itself and stays within the limit |
| `SplitParts.CutIsFaithful` | crates/doc/src/parts.rs:538-563 | every piece is a non-empty run of whole characters of at most 256 KiB |
| `SplitParts.CutJoins` | crates/doc/src/parts.rs:538-563 | the pieces concatenate to the text |
| `SplitParts.CutIds` | crates/doc/src/parts.rs:551-557 | the first piece keeps the part's id, and the i-th after it adds `~` and i |
| `SplitParts.PiecesAreFull` | crates/doc/src/parts.rs:538-563 | every piece but the last is as long as it can be: the next character would not have fit |
| `SplitParts.ChunksFitIff` | crates/doc/src/parts.rs:518-567 | every chunk fits inline if and only if every part that cannot be cut does |
| `SplitParts.ChunksAreFull` | crates/doc/src/parts.rs:518-536 | a new chunk is opened only for a part the last could not take |
| `SplitParts.OnlyLongTextsAreCut` | crates/doc/src/parts.rs:538-567 | if every text fits, the parts come out as they went in |
| `SplitParts.SplitLosesNothing` | crates/doc/src/parts.rs:523-573 | joining the chunks gives back every part in order with the same text, cut between characters only |
| `SplitParts.Splitter.SplitAll` | crates/doc/src/parts.rs:523-567 | the loops with their running byte count compute the specified chunks |
| `SegmentWriter.ReadsBackIff` | crates/doc/src/schema.rs:105-220 | a part reads back as written if and only if a failed tool is resolved and an input's id is its request id |
| `SegmentWriter.StoredWords` | crates/doc/src/schema.rs:105-220 | the kind and status words of the stored form, the id it is stored under, and that a verdict is stored exactly for a resolved tool |
| `SegmentWriter.FoldedReadsBack` | crates/doc/src/schema.rs:105-220 | folded parts, stamped or not, read back unchanged except that inputs answer to their request id |
| `SegmentWriter.SyncIsExactIff` | crates/doc/src/schema.rs:924-980 | one tick leaves exactly what pushing the parts once would, if and only if no optional field of a written part went from present to absent; text may have grown and any other field may have changed in any way |
| `SegmentWriter.FoldDropsIff` | crates/doc/src/parts.rs:283-319 | the only event of the fold that takes a stored field away is a result without a diff for a tool whose earlier result had one |
| `SegmentWriter.WriterRefinesOneShotIff` | crates/doc/src/schema.rs:836-848 | over a whole turn of events, subagent stamps, settled inputs and ticks in any order, after a last tick the document is the final parts written once if and only if no field that any earlier tick wrote is absent from them |
| `SegmentWriter.WriterRefinesOneShot` | crates/engine/src/sessions.rs:1222-1247 | in particular it is, wherever the ticks fall, in a turn in which no result forgets the statistics an earlier one brought |
| `SegmentWriter.ForgottenStatsStay` | crates/doc/src/schema.rs:1000-1052 | with that event the stored statistics outlive the part's |
| `SegmentWriter.Writer.Sync` | crates/doc/src/schema.rs:924-980 | the loop over list and mirror computes the specified tick, with its error |
| `SegmentWriter.Writer.Finish` | crates/doc/src/schema.rs:982-990 | the terminal status is stamped only after a successful last sync |
| `UpdateLog.LogRoundTrip` | edge/src/update-log.ts:32-66 | reading the log gives exactly the non-empty updates appended, in order, whatever their width |
| `UpdateLog.RowsAreFull` | edge/src/update-log.ts:32-42 | of the rows of one update only the last is not full |
| `UpdateLog.UpdateTable.AppendUpdateRow` | edge/src/update-log.ts:32-42 | one update becomes rows of which none is empty or over the chunk size, after all earlier rows |
| `UpdateLog.UpdateTable.ReadUpdateRows` | edge/src/update-log.ts:45-66 | the regrouping loop returns the non-empty updates appended |
| `UpdateLog.BlobStore.Put` | edge/src/blobs.ts:23-29 | after the put the name reads back the bytes, empty ones included, in chunks within the cap of which all but the last are full; no other name changes |
| `UpdateLog.BlobStore.Read` | edge/src/blobs.ts:30-42 | filling the buffer chunk by chunk gives the stored bytes, or nothing for an absent name |
| `UpdateLog.EmitFragments` | edge/src/session-room.ts:1355-1379 | a wide update leaves as the announced number of fragments, none empty, none over the cap, each its slice |
| `UpdateLog.PackNarrow` | edge/src/session-room.ts:1333-1354 | the narrow updates leave once each, in order, in non-empty frames under the cap, none of which could have taken the first update of the next |
| `UpdateLog.FragmentsReassemble` | edge/src/session-room.ts:855-884 | fragments arriving once each in any order put the update back together, at the last one and not before |
| `UpdateLog.FragmentBuffer.HandleHeader` | edge/src/session-room.ts:806-853 | a batch over the byte or count limit gets no buffer |
| `UpdateLog.FragmentBuffer.HandleFragment` | edge/src/session-room.ts:855-884 | an unknown batch changes nothing; a known one is buffered until its last fragment, then removed whether or not it assembles |
| `UpdateLog.RepeatedFragmentCorrupts` | edge/src/session-room.ts:874-876 | a repeated fragment is counted and the batch completes with a hole |
| `UpdateLog.ReassemblesIff` | edge/src/session-room.ts:874-884 | of all arrival orders of the announced length with indices in range, exactly those in which every fragment arrives once put every update of that size back together |
| `SessionRoom.ContentIsKept` | edge/src/session-room.ts:784-1106 | flushing, folding, releasing and replaying keep exactly what the room holds, recording adds exactly the non-empty updates, a crash falls back to what was durable; only a drop takes anything away |
| `SessionRoom.RunsCount` | edge/src/session-room.ts:888-969 | in every run with rollbacks the durable counter is exactly the number of consecutive replay deaths, or past the limit after a drop whose own replay died |
| `SessionRoom.AtMostThreeDeaths` | edge/src/session-room.ts:908-937 | no log suffers a fourth consecutive replay death: the next cold start durably drops log, snapshot and buffer |
| `SessionRoom.DropsOnlyAfterThreeDeaths` | edge/src/session-room.ts:908-910 | a log is dropped only at the third consecutive replay death, or when the replay after a drop died |
| `SessionRoom.CrashesOutsideNeverCount` | edge/src/session-room.ts:958-969 | however often the room crashes outside the replay window, the durable counter stays zero and nothing is dropped |
| `SessionRoom.NoBackupOfADroppedRoom` | edge/src/session-room.ts:1042-1049 | in every run, between a drop and a later backup some non-empty update was recorded |
| `SessionRoom.RecordedIsBackedUp` | edge/src/session-room.ts:1215-1283 | at the end of every run a live room that records a non-empty update next puts all it holds, unless that would lack something put before |
| `SessionRoom.EveryBackupIsNews` | edge/src/session-room.ts:1215-1283 | in every run some non-empty update or a crash lies between two backups |
| `SessionRoom.CommittedIsSafe` | edge/src/session-room.ts:1068-1092 | flushed and committed, everything the room holds survives a crash |
| `SessionRoom.UncommittedIsLost` | edge/src/session-room.ts:1068-1092 | what is recorded and flushed but not committed does not |
| `SessionRoom.FoldingEmptiesTheLog` | edge/src/session-room.ts:1107-1123 | a fold leaves a replay just the snapshot and the buffer, with nothing missing |
| `SessionRoom.NothingWithoutAReplay` | edge/src/session-room.ts:886-1003 | in every run, after a crash or a release nothing is recorded, folded or put before a replay has finished |
| `SessionRoom.BackupsOnlyGrow` | edge/src/session-room.ts:1232-1283 | every later backup includes every earlier one across drops and crashes, in runs whose crashes find every backed-up operation named by the durable key |
| `SessionRoom.CrashKeepsTheBackupIff` | edge/src/session-room.ts:1232-1283 | the condition is exact: a crash leaves the backup growing through whatever follows it without another such crash if and only if the durable key names every operation the current key does; otherwise some continuation puts a backup that lacks one |
| `SessionRoom.ForgottenPutShrinksTheBackup` | edge/src/session-room.ts:1276-1281 | a run in which a crash rolls the key of a put back and the next backup lacks what only that put had |
| `SessionRoom.GuardOpensOnAnEmptyRoom` | edge/src/session-room.ts:784-804 | the flag can be durably cleared while the update that cleared it is lost with the buffer; then only the inclusion test stands |
| `SessionRoom.GuardDoesOpen` | edge/src/session-room.ts:784-804 | a run in which it happens: a put, three replay deaths, a drop, one lost update; the flag is clear, the room is empty, and only the inclusion test keeps the backup |
| `SessionRoom.SessionObject.BeginReplay` | edge/src/session-room.ts:908-937 | the raised count is durable before the replay, and so is a drop |
| `SessionRoom.SessionObject.RecordLoroUpdates` | edge/src/session-room.ts:784-804 | only non-empty updates are buffered, and a batch without one changes nothing |
| `SessionRoom.SessionObject.AlarmBackup` | edge/src/session-room.ts:1215-1283 | the put, of everything held with the buffer included, happens exactly when dirty, not after a reset, and including what was last put |
| `ChangeRequests.RunsKeepInv` | crates/engine/src/change_requests.rs:189-307 | the cache invariant holds under every interleaving of acquires and two-step drops |
| `ChangeRequests.LiveLeasesAreMapped` | crates/engine/src/change_requests.rs:223-234 | a live lease's entry is the one mapped for its key, shared by all watchers of the key, and the counter is their number, so a refresh finds its entry |
| `ChangeRequests.EvictSparesHeld` | crates/engine/src/change_requests.rs:291-307 | an eviction never removes an entry somebody holds |
| `ChangeRequests.NoEntryOutlivesItsLeases` | crates/engine/src/change_requests.rs:291-307 | once no drop is half done, a key is mapped exactly when somebody watches it |
| `ChangeRequests.WatchersAreServed` | crates/engine/src/change_requests.rs:189-221 | a watcher holds its lease at once, on the entry mapped for its key or a new one, and no other lease or key is affected |
| `ChangeRequests.EveryCacheCanEmpty` | crates/engine/src/change_requests.rs:271-307 | from every world the drops that are left can all run to their end, and then nothing is mapped |

## Left out

- ChatLaws.CatchUpCompletes: completeness is claimed for backfills whose cursor was not behind the floor, because `ChatLimits.PruningInBetweenIsMissed` refutes it for the others.
- HTTP routing, authentication, sockets, alarms and SQL: only the tables, meta keys and frames they carry are modelled.
- JSON, serde and the registry's identifier patterns: what a client writes is taken to match them, lengths are those of the text without insignificant space, and an empty map of clock overrides counts as left off.
- What a registry room sends on a socket it has closed over a frame too long: the link is cut at once.
- The registry's and the chat relay's plain-HTTPS twins, including the client's offline pull: they deliver no frames on the modelled links.
- Operator resets of the rooms, except recovering a wiped registry table from a replica: once the new sequence number passes an old cursor nothing detects the wipe.
- Restarting a registry client from an older persisted snapshot, and restarting a chat client: for the latter the persisted pair is proved honest in every run.
- The order of rows inside one registry frame: each row occurs once, so a frame is a map.
- The order of sockets within one broadcast: each socket has its own queue.
- Local registry batches with two ops on one row: the write API builds one op per row, and the no-flicker and settling results are about such batches.
- `overlay_rows`, typed accessors, presence, statistics, quotas, probes, notices and liveness picking: they read or decorate what is modelled.
- Causal dependencies between chat updates: an imported row counts as held at once, while the library may park it until its dependencies arrive.
- Malformed rows and evicted documents in the chat sink: imports succeed and the document is live.
- The quota rejection of a chat push and its retry clock: the batch stays queued as after a lost frame.
- Concurrency inside one chat client beyond its session, its writers and its captures: an acknowledgement and a checkpoint import are single steps, and the offline pull does not run.
- Reuse of a chat batch id by another update: the ids are random identifiers, and the model lets each be used once.
- Threads inside the change-request cache: its atomic steps are modelled on values, as interleaved steps, not as methods of an object.
- Line statistics of a diff and what the privacy policy keeps of a tool call: an event carries the former, the latter is any function of the call.
- Stamping sidecar keys onto parts, which only the source's tests do, and updating the chip of an entry that is already finished: the stamp of a subagent's document onto a streaming chip is modelled.
- Entry-level merging of continuation entries by root id: the join of their parts is modelled, the grouping is not.
- History trimming of session documents and its fallback to a full snapshot: a fold keeps all operations.
- Overlapping cold starts of a session room: a second one that begins while the first waits for its sync raises the counter again; cold starts follow one another here.
- The stretch of a session room's alarm between reading the document and the end of the put: it is one step, so an update recorded in between, and the flag cleared after it, are not modelled.
- The import penalty box and the poisoned-heap tripwire of the session room.
- What a refresh of the change-request cache does with its time-to-live and back-off: only that it finds its entry.
- Agent accounts, the daemon and its command line, the instance lock, diff capture, panels, the iOS interface and packaging.
