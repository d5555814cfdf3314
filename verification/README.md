# Execution Fabric: a verified model

Execution Fabric decides which physical attempt of a logical execution is authoritative and which
completion is allowed to become real. This project models, in Dafny, the three layers that decision
rests on, and proves what they promise together.

1. **The authority engine.** `EngineSpec` says what each of the engine's operations decides and what
   it makes of one record, and defines the step of the whole engine and its runs. `Engine` is the
   engine as an object with mutable fields and loops over the attempt history; every method is proved
   to take exactly that step. `EngineInvariants`, `EngineRuns` and `EngineIndependence` prove what
   every run keeps: the shape of authority, one commit, fencing of old tickets and old control
   requests, frozen terminal records, the coupling of execution and attempt state, independence of
   executions, and a bound on state changes. `EngineDecisions` says, without the bodies, when each
   operation is granted, with which code it is refused otherwise and what becomes of the record.
2. **The durable store and the wire.** `Binary`, `RecordCodec`, `Store`, `Protocol` and `Messages`
   define printers and readers on byte sequences and prove that they undo each other, exactly which
   byte strings decode, that accepted encodings are prefix-free, and that corruption within eight
   consecutive bytes is always refused.
   The last point rests on the algebra of the reflected CRC-64 (`Register`, `Checksum`). `Streams`,
   `Persistence` and `Wire` are the byte writer, the byte reader and the field-by-field code over
   them, proved equal to those functions. `Sha256` is the streaming digest. `Layout` and
   `MessageLayout` give the bytes themselves, by place and by order, and `MessageMeaning` the frames
   that bring each message. `KnownChecksum` and `KnownDigest` carry both hashes to machine words
   (`MachineWords`) and to published values.
3. **The coordinator and the worker.** `CoordinatorSpec` is a state machine: one step for each queued
   message, one for a crash followed by a restart from the file. `Coordinator` is the object that
   handles the queue. `CoordinatorRuns` proves commit safety over every interleaving, at the level
   of the bytes on disk. `CoordinatorRecovery` proves exactly when a restart finds its records again.
   `CoordinatorEpochs` and `CoordinatorFencing` prove which tickets stay fenced across restarts, with
   `EpochWitness` for one that does not. `CoordinatorReplies` ties what clients are told to what the
   engine decided, and `Disconnection` a closing connection to the work offered on it. `Worker`, `EndToEnd` and `Journey`
   follow one ticket over the wire to the acknowledged and stored commit of the worker's result.

## How to read it

- Random identities and clock readings are parameters of the operations. Freshness (`Fresh`,
  `FreshRun`) asks that a drawn attempt or dispatch identity is not nil and not yet in the history of
  the execution it is drawn for.
- Identities and digests are the numbers their bytes spell most significant byte first, so that
  equality and order are those of the bytes. Every counter is an explicit unsigned 64-bit number;
  lengths that the program narrows to 32 bits are narrowed in the model.
- Activating or dispatching an unknown execution throws in the program. The engine object requires
  the execution to exist; the total step function leaves the state alone and answers `UNKNOWN`; the
  coordinator goes down and only a restart revives it.
- A save replaces the whole file at once, and a handler runs to its end before a crash. The
  connection that the search over the unordered connection table finds is an input of the step.
- `Medium` abstracts a store (what it writes, what it reads, what it can write in full) so that the
  state machine can be reasoned about without unfolding the codec; `Disk` is the real one.
- Small predicates that are always true (`At`, `Writing`, `Reading`, `Taking`, `Visit`) only name the places
  where a fact about a function passed as a parameter is to be used.

## Where the code does not do what one would expect

The model follows the code in each case.

- `dispatch` accepts RESUMING (src/engine.cpp:247-249) although the table forbids the move
  (include/execution_fabric/state_machine.hpp:59-62): the authority is rewritten and the call then
  rejects without a ticket. Three other rejections rewrite part of the record
  (`EngineRuns.RewritingRejections`). After one of them, a rejected supersede, attempt generations
  restart at 1 (`NumberingWitness.NumberingIsLost`); `EngineRuns.NumberingInEveryRun` gives the exact
  condition under which attempt i has generation i+1.
- A cancellation granted to a READY execution that was never dispatched gives a record that the
  loader refuses, and with it the whole file: no later message repairs it, and a restart then starts
  empty, acknowledged commits included (`CoordinatorRecovery.CancelBeforeDispatchLosesAll`,
  `CoordinatorRecovery.CancelSpoilsForever`). Commit safety is therefore stated for runs whose reloads
  succeed, and `CoordinatorRecovery.RestartInEveryRun` says exactly when they do.
- The epoch of a record is fixed at creation (src/engine.cpp:154), so a ticket issued under a later
  epoch can start but never complete (`EndToEnd.CommitsUnder`, second case).
- One of the digest's 64 round constants is not that of section 4.2.2 of FIPS 180-4: 0xa831c66c for
  0xa831c66d (include/execution_fabric/sha256.hpp:70). So no block is compressed as the standard
  does, from any state (`KnownDigest.NeverStandard`), no message of up to 55 bytes has the digest
  that the standard's table gives its padded form (`KnownDigest.ShortDigestsDiffer`), and the digest
  of the empty message is not the published one (`KnownDigest.EmptyDigest`,
  `KnownDigest.PublishedDigest`). The class comment calls it SHA-256.
- The digest's length field counts whole blocks only (include/execution_fabric/sha256.hpp:29, 103).
  The padding is that of section 5.1.1 of FIPS 180-4 exactly for messages of whole blocks
  (`Sha256.StandardExactly`), and it is injective for all.
- The coordinator's epoch reaches the file only with the next save: a crash before that and a restart
  under a lower epoch revive tickets that were already refused (`EpochWitness.FencedTicketCommits`;
  `CoordinatorEpochs.FenceExactly` is the exact condition).
- A dispatch rejected in RESUMING overtakes the resume ticket in memory but is not saved, so a restart
  brings that ticket back (`CoordinatorFencing.OvertakingSurvivesExactly`).
- A closing connection reports the loss under the coordinator's own epoch and with the boot of the
  greeting, while the dispatch used those of the request (coordinator/coordinator.cpp:126-141, 192-230).
  The work offered on it is given back exactly if the two boots agree and the coordinator's epoch is
  not older than the ticket's (`Disconnection.OfferThenClose`). An offer made by a resume is not
  remembered at all (`CoordinatorReplies.ConnsKept`).
- The comment on the frame magic gives its bytes as 45 46 58 44 (protocol/protocol.hpp:15); the code
  sends 45 58 46 44 (`Layout.FrameLayout`).
- A client can send the connection-closed marker itself, as a SHUTDOWN frame with four 0xFF bytes.

## Model

| member | source | states |
|---|---|---|
| `Types.Advance` | include/execution_fabric/generation.hpp:30-39 | advancing a counter n times adds n and saturates at the maximum, for every n |
| `EngineInvariants.LoopTouchesCurrent` | src/engine.cpp:259-266 | in a well-formed history every loop over the attempts, with or without break, changes the last attempt alone |
| `EngineInvariants.DispatchKeeps` | src/engine.cpp:191-316 | dispatch keeps the record invariant, also on the path that rewrites and then rejects |
| `EngineInvariants.ResumeKeeps` | src/engine.cpp:771-857 | resume keeps the record invariant |
| `EngineInvariants.CompleteKeeps` | src/engine.cpp:481-570 | complete keeps the record invariant, also when it marks the attempt and then rejects |
| `EngineInvariants.SupersedeKeeps` | src/engine.cpp:933-967 | supersede keeps the invariant, also when it clears the current attempt and then rejects; it keeps the strict form unless it gets past its guards in an execution that is ready or has a history |
| `EngineInvariants.GoodKept` | src/engine.cpp:131-967 | every operation keeps the record invariant, and every one but a breaking supersede keeps its strict form |
| `EngineInvariants.StrictKeptExactly` | src/engine.cpp:933-967 | the strict form, with the coupling and the numbering, is lost exactly by such a supersede |
| `EngineRuns.StepIsLocal` | src/engine.cpp:45-61 | an operation leaves every execution it does not name unchanged |
| `EngineRuns.AuthorityInEveryRun` | src/engine.cpp:165-186 | in every run from an empty engine: identities are distinct, attempt i holds ownership and fence i+2 up to saturation, a named current attempt is the last one, not superseded, and agrees with the record in generation, worker, boot, ownership and fence; commit generation is 1 and a digest present exactly in COMMITTED, and it is the current attempt's |
| `EngineRuns.CouplingInEveryRun` | include/execution_fabric/state_machine.hpp:22-131 | in every run in which no supersede gets past its guards once the execution is ready, the execution state bounds the current attempt's state as the table MayPair says, and attempt i has generation i+1 |
| `EngineRuns.TerminalForever` | src/engine.cpp:203-224 | a terminal record is changed in no field by any later sequence of operations |
| `EngineRuns.RejectionFrame` | src/engine.cpp:258-294 | a decision other than ALLOW or RESUME_ALLOWED issues no ticket, changes no state, digest, commit generation or record epoch, and changes anything else only on four named paths |
| `EngineRuns.RewritingRejections` | src/engine.cpp:553-563 | those four paths do reject; what each of them leaves behind, the completed attempt's digest included, and exactly when that differs from what was there |
| `EngineRuns.NumberingExactly` | src/engine.cpp:268-288 | a step loses the numbering (attempt i has generation i+1) exactly if it is a dispatch or resume that gets past its guards while the history has no current attempt |
| `EngineRuns.AddsExactly` | src/engine.cpp:191-256 | the guards of dispatch and resume decide whether the history grows |
| `EngineRuns.NumberingInEveryRun` | src/engine.cpp:956-966 | in every run from an empty engine the numbering holds if and only if no operation did so |
| `NumberingWitness.NumberingIsLost` | src/engine.cpp:956-966 | eight operations from an empty engine, among them a rejected supersede, after which the second attempt has generation 1 |
| `EngineRuns.HistoryGrows` | src/engine.cpp:281-290 | histories are append-only: no field of an entry changes but the state and result of the current one; they grow by one attempt, only in dispatch and resume, and that attempt becomes current with the next ownership generation |
| `EngineRuns.IssuedTicketIsCurrent` | src/engine.cpp:296-315 | the ticket handed out by dispatch or resume names the authority the record now holds, under the engine's epoch |
| `EngineRuns.FencedForever` | src/engine.cpp:321-367 | authority that was overtaken stays overtaken in every run |
| `EngineRuns.OvertakenTicketNeverActs` | src/engine.cpp:403-479 | once a later attempt is created, the epoch rises or supersede runs past its guards, an earlier ticket never again gets ALLOW from mark_running or complete, whatever else happened before and after |
| `EngineRuns.OvertakenControlNeverActs` | src/engine.cpp:575-597 | below saturation, once a new attempt has been created a control request with an older ownership generation never again gets ALLOW from cancel or preempt |
| `EngineIndependence.RunProjects` | coordinator/coordinator.cpp:107-124 | under a fixed epoch the record and the answers of an execution after any interleaved run are those of running its own operations alone |
| `EngineIndependence.DistinctCommute` | src/engine.cpp:131-967 | operations on distinct executions commute, with the same decisions and tickets |
| `EngineIndependence.RankDrops` | include/execution_fabric/state_machine.hpp:22-81 | between attempt creations every change of state lowers a rank |
| `EngineIndependence.StateChangesBounded` | src/engine.cpp:96-111 | in every run an execution changes state at most five times per attempt plus four |
| `StateMachine.TableExactly` | include/execution_fabric/state_machine.hpp:22-82 | a move is allowed exactly to the exits listed for each state |
| `StateMachine.TerminalExactly` | include/execution_fabric/state_machine.hpp:83-91 | the terminal states are exactly those without exits, and every other may fail or be closed |
| `StateMachine.AttemptTableExactly` | include/execution_fabric/state_machine.hpp:95-131 | the same for attempts |
| `EngineDecisions.CreateDecides` | src/engine.cpp:131-160 | when a creation is granted, the code of each refusal, and the record that it makes |
| `EngineDecisions.ActivateDecides` | src/engine.cpp:165-186 | when an activation is granted, each refusal, and the resulting record |
| `EngineDecisions.DispatchDecides` | src/engine.cpp:191-316 | a dispatch that is not outdated is granted in exactly four states, with the whole resulting record and ticket; in RESUMING it reassigns the authority and is rejected |
| `EngineDecisions.DispatchRefusals` | src/engine.cpp:195-249 | the code of a refused dispatch for every state |
| `EngineDecisions.ResumeDecides` | src/engine.cpp:771-857 | a resume is granted exactly to a RESUMABLE execution for the next resumption under its own epoch, with the whole resulting record and ticket, and the code of each refusal |
| `EngineDecisions.StartRefusals` | src/engine.cpp:321-364 | a start is refused with the code of the first field that does not agree |
| `EngineDecisions.StartDecides` | src/engine.cpp:369-398 | a start is granted exactly to the current authority of a dispatched or resuming execution, which then runs |
| `EngineDecisions.ForeignCompletionRefusals` | src/engine.cpp:403-447 | a completion by anyone but the current authority is refused with the code of the first field that does not agree |
| `EngineDecisions.NearCompletionRefusals` | src/engine.cpp:448-478 | the same for the last fields: boot, ownership and fence, dispatch |
| `EngineDecisions.CompletionRefusals` | src/engine.cpp:498-540 | what the current authority is told in COMMITTED with the same and with another digest, in CANCELLED, in the other terminal states, in PREEMPTED and without a result |
| `EngineDecisions.CompletionDecides` | src/engine.cpp:541-570 | a result of the current authority is committed in exactly six states, with the whole resulting record, and only marked in the others |
| `EngineDecisions.RepeatedCompletion` | src/engine.cpp:498-509 | over runs: after a granted completion and any operations, the same ticket is a duplicate, with another digest or none a conflict, and under a risen epoch stale |
| `EngineDecisions.CancelDecides` | src/engine.cpp:575-622 | cancel is granted exactly to the holder in five states; the whole outcome for every state and refusal |
| `EngineDecisions.FinalizeCancelDecides` | src/engine.cpp:627-661 | the whole outcome of finalize_cancel for every state |
| `EngineDecisions.PreemptDecides` | src/engine.cpp:666-709 | preempt is granted exactly to the holder in three states; the whole outcome for every state and refusal |
| `EngineDecisions.AcknowledgePreemptDecides` | src/engine.cpp:714-740 | the whole outcome of acknowledge_preempt for every state |
| `EngineDecisions.MarkResumableDecides` | src/engine.cpp:745-766 | the whole outcome of mark_resumable for every state |
| `EngineDecisions.LossDecides` | src/engine.cpp:862-928 | a loss takes effect exactly if it is not outdated, names owner and boot, and the state is one of four; which state each of them becomes, and the attempt marked lost where the table allows |
| `EngineDecisions.LossRefusals` | src/engine.cpp:868-900 | otherwise nothing changes, with the code of each refusal |
| `EngineDecisions.SupersedeDecides` | src/engine.cpp:933-968 | past its guards supersede clears the authority in every state and is granted in exactly four |
| `EngineDecisions.UnknownDecides` | src/engine.cpp:45-58 | an operation on an unknown execution changes nothing |
| `EngineDecisions.EpochDecides` | src/engine.cpp:131-205 | which operations raise the engine epoch, and to what |
| `Listing.EmplacedOfListing` | src/engine.cpp:70-91 | installing the sorted list of the records gives the same map back |
| `Listing.ListingUnique` | src/engine.cpp:83-91 | there is one list of the records in ascending order of identity |
| `Engine.ChangeEvery` | src/engine.cpp:657-663 | the loop without break changes exactly the attempts it picks |
| `Engine.ChangeOne` | src/engine.cpp:259-266 | the loop with break changes exactly the first attempt it picks |
| `Engine.ExecutionEngine.ReplaceRecords` | src/engine.cpp:70-79 | the records are installed, the first of equal identities staying, and the epoch becomes the highest of its own and theirs |
| `Engine.ExecutionEngine.Records` | src/engine.cpp:83-91 | the records once each, in ascending order of identity |
| `Engine.ExecutionEngine.Create` | src/engine.cpp:131-163 | takes the step of the engine specification |
| `Engine.ExecutionEngine.Activate` | src/engine.cpp:165-186 | takes the step of the engine specification |
| `Engine.ExecutionEngine.Dispatch` | src/engine.cpp:191-316 | takes the step of the engine specification, with the same ticket |
| `Engine.ExecutionEngine.MarkRunning` | src/engine.cpp:369-398 | takes the step of the engine specification |
| `Engine.ExecutionEngine.Complete` | src/engine.cpp:481-570 | takes the step of the engine specification |
| `Engine.ExecutionEngine.Cancel` | src/engine.cpp:575-625 | takes the step of the engine specification |
| `Engine.ExecutionEngine.FinalizeCancel` | src/engine.cpp:627-664 | takes the step of the engine specification |
| `Engine.ExecutionEngine.Preempt` | src/engine.cpp:666-712 | takes the step of the engine specification |
| `Engine.ExecutionEngine.AcknowledgePreempt` | src/engine.cpp:714-743 | takes the step of the engine specification |
| `Engine.ExecutionEngine.MarkResumable` | src/engine.cpp:745-769 | takes the step of the engine specification |
| `Engine.ExecutionEngine.Resume` | src/engine.cpp:771-857 | takes the step of the engine specification, with the same ticket |
| `Engine.ExecutionEngine.MarkWorkerLost` | src/engine.cpp:862-928 | takes the step of the engine specification |
| `Engine.ExecutionEngine.Supersede` | src/engine.cpp:933-967 | takes the step of the engine specification |
| `Engine.ExecutionEngine.AdoptEpoch` | include/execution_fabric/engine.hpp:89 | the epoch only rises |
| `Register.AbsorbIsSerial` | include/execution_fabric/checksum.hpp:15-18 | for any step function that passes shifted-in bits through, absorbing a message byte by byte is feeding its bits one at a time |
| `Register.BurstChangesRegister` | include/execution_fabric/checksum.hpp:15-18 | for any injective such step, two messages of the same length that differ only within eight consecutive bytes leave different registers |
| `Checksum.ShiftInjective` | src/checksum.cpp:10-12 | one step of the reflected division loses no information |
| `Checksum.TableIsSerial` | include/execution_fabric/checksum.hpp:15-18 | for every register and message the table-driven update equals bit-at-a-time reflected division |
| `Checksum.BurstDetected` | include/execution_fabric/checksum.hpp:25-27 | two different messages of the same length that differ only within eight consecutive bytes have different checksums |
| `Checksum.BuildTable` | src/checksum.cpp:6-16 | the table built by the nested loops holds, for each byte, eight steps of the division |
| `Checksum.Crc64.Update` | include/execution_fabric/checksum.hpp:15-18 | updating with pieces is updating with their concatenation |
| `Checksum.CrcOf` | include/execution_fabric/checksum.hpp:25-27 | the one-shot checksum is that of the specification |
| `KnownChecksum.PolyValue` | src/checksum.cpp:11 | the exponents of the polynomial of ECMA-182 are the bits of the constant 0xC96C5795D7870F42, reflected |
| `KnownChecksum.StepIsMachine` | src/checksum.cpp:10-12 | for every word, the step on bits is the step of the loop on unsigned 64-bit integers |
| `KnownChecksum.ComputeIsMachine` | include/execution_fabric/checksum.hpp:15-27 | for every message, the checksum is the loop on unsigned 64-bit integers started from all ones |
| `KnownChecksum.EmptyValue` | include/execution_fabric/checksum.hpp:13 | the checksum of nothing is all ones |
| `KnownChecksum.CheckValue` | include/execution_fabric/checksum.hpp:25-27 | the checksum of "123456789" is 0x66A2364420E6C605, the complement of the published check value |
| `Sha256.PadInjective` | include/execution_fabric/sha256.hpp:28-38 | different messages have different padded forms, although the length field counts whole blocks only |
| `Sha256.StandardExactly` | include/execution_fabric/sha256.hpp:28-38 | the padding is that of section 5.1.1 of FIPS 180-4 exactly for messages whose length is a multiple of 64 |
| `Sha256.CompressBlock` | include/execution_fabric/sha256.hpp:65-103 | the schedule and round loops compute the compression function of section 6.2.2 of FIPS 180-4 with the program's table of constants |
| `Sha256.Hasher.Update` | include/execution_fabric/sha256.hpp:18-26 | the state depends on the concatenation of the pieces alone, not on how it was split |
| `Sha256.Hasher.Final` | include/execution_fabric/sha256.hpp:28-48 | the chaining value is the fold of the compression function over the padded message |
| `Sha256.DigestOfBuffer` | include/execution_fabric/digest.hpp:20-22 | the digest object gives the digest of the specification |
| `KnownDigest.RoundFaithful` | include/execution_fabric/sha256.hpp:90-99 | a round loses nothing of the state and tells any two round constants apart |
| `KnownDigest.NoBlockAlike` | include/execution_fabric/sha256.hpp:65-103 | two tables of constants that differ in one place compress no block alike, from any state |
| `KnownDigest.NeverStandard` | include/execution_fabric/sha256.hpp:66-74 | no block is compressed as section 6.2.2 of FIPS 180-4 does, because one constant differs |
| `KnownDigest.ChainInjective` | include/execution_fabric/sha256.hpp:40-47 | different final states give different digests |
| `KnownDigest.ShortDigestsDiffer` | include/execution_fabric/sha256.hpp:28-48 | for every message of at most 55 bytes the digest is not the one that the standard's table gives the same padded block |
| `KnownDigest.EmptyDigest` | include/execution_fabric/sha256.hpp:50-52 | the digest of the empty message, as a number of 32 bytes |
| `KnownDigest.PublishedDigest` | include/execution_fabric/sha256.hpp:9-12 | the same functions with the standard's table and padding give the published digest of the empty message |
| `Streams.ByteWriter.Quad` | include/execution_fabric/binary.hpp:28-30 | the value stands in front of whatever is written next, as the reader on values expects it |
| `Streams.ByteWriter.Text` | include/execution_fabric/binary.hpp:36-39 | the same for a length-prefixed string, the length narrowed to 32 bits |
| `Streams.ByteReader.Num` | include/execution_fabric/binary.hpp:69-84 | the number is read exactly when the bytes are there, and the cursor stands behind it |
| `Streams.ByteReader.Text` | include/execution_fabric/binary.hpp:98-106 | a string is read exactly when it is complete and not above 1 MiB; the failure flag, after which every read fails, is set exactly by a length above the limit |
| `RecordCodec.DecodeOfEncode` | src/persistence.cpp:74-119 | decoding an encoded record gives that record exactly if it is within the reader's limits and passes the cross-field checks, for every record whose lengths are not truncated |
| `RecordCodec.EncodeOfDecode` | src/persistence.cpp:121-282 | whenever bytes decode, the record is valid and re-encoding it gives those bytes with the presence bytes, and no others, brought to 0 or 1 |
| `RecordCodec.DecodesExactly` | src/persistence.cpp:121-282 | bytes decode to a record if and only if the record is valid and they are its encoding up to the presence bytes |
| `RecordCodec.EncodedSize` | src/persistence.cpp:74-119 | the exact length of every encoding, from the counts in the record |
| `RecordCodec.PrefixFree` | src/persistence.cpp:234-235 | no strict extension of an accepted encoding is accepted, hence no strict prefix either |
| `Layout.RecordLayout` | src/persistence.cpp:74-119 | the bytes of every encoded record, field by field: identities most significant byte first, counters least significant first as digits in base 256, states by their place in the declared order, presence bytes before optional fields, the history with its two state bytes |
| `Layout.RecordPlaces` | src/persistence.cpp:74-82 | bytes 0 to 16 are the identity, 16 to 24 the generation, byte 24 the place of the state in the declared order of the seventeen, and so on to the fence |
| `Recovery.CheckedInEveryRun` | src/persistence.cpp:237-278 | every record reachable without a breaking supersede passes the cross-field checks exactly if it is not a requested cancellation without attempts |
| `Recovery.OwnerlessKept` | src/engine.cpp:616-618 | such a record is changed by nothing but finalize_cancel and supersede |
| `Store.LoadOfSave` | src/persistence.cpp:287-332 | loading what was saved gives the same records in order and the same epoch exactly if all are loadable, distinct and not too many |
| `Store.LoadIsSound` | src/persistence.cpp:362-411 | whatever the bytes, a successful load returns distinct identities and only valid records |
| `Store.BurstRefused` | src/persistence.cpp:342-361 | any change of a loadable file within eight consecutive bytes, body or trailer, makes load fail |
| `Store.LoadsExactly` | src/persistence.cpp:334-412 | a file loads as these records and this epoch if and only if it is their header, records and sealed trailer and the records are distinct |
| `Layout.FileLayout` | src/persistence.cpp:287-319 | the bytes of every file: magic, version, epoch, count, each record with length and checksum, trailer magic and checksum of all before it |
| `Persistence.EncodeRecord` | src/persistence.cpp:74-119 | the writer produces the encoding of the specification |
| `Persistence.CheckHistory` | src/persistence.cpp:240-250 | the loop over two identity sets accepts exactly histories with distinct identities and set generations |
| `Persistence.CheckCurrent` | src/persistence.cpp:251-265 | the search accepts exactly records whose named current attempt is in the history with that generation |
| `Persistence.DecodeRecord` | src/persistence.cpp:121-282 | the reader accepts and returns exactly what the specification does |
| `Persistence.Save` | src/persistence.cpp:287-319 | the writer produces the file of the specification |
| `Persistence.Load` | src/persistence.cpp:334-412 | the loader, which stops at the first repeated identity, accepts and returns exactly what the specification does |
| `Protocol.FrameRoundTrip` | protocol/protocol.cpp:65-99 | a frame in front of anything decodes to itself and leaves the rest |
| `Protocol.StreamRoundTrip` | protocol/protocol.cpp:65-99 | a concatenation of encoded frames decodes to those messages in order and consumes every byte |
| `Protocol.PayloadBurstRejected` | protocol/protocol.cpp:91-94 | any change of the payload within eight consecutive bytes is rejected |
| `Protocol.ChecksumFieldChangeRejected` | protocol/protocol.cpp:91-94 | any change of the checksum field alone is rejected |
| `Protocol.FrameExactly` | protocol/protocol.cpp:76-99 | bytes decode to a frame and a rest if and only if they are that frame followed by that rest and the payload is within the limit |
| `Layout.FrameLayout` | protocol/protocol.cpp:65-74 | the bytes of every frame: magic, version, the place of the kind in the declared order, length, checksum, payload |
| `Messages.PutAuthority` | protocol/protocol.cpp:107-137 | the eleven shared ticket fields are read back as they were written |
| `Messages.PutCompletion` | protocol/protocol.cpp:139-166 | a completion ticket is read back as it was written, if it has a result or a nil digest |
| `Messages.PackControl` | protocol/protocol.cpp:168-180 | a control request is read back without its execution generation, which is not sent |
| `Messages.PackEpochRequest` | protocol/protocol.cpp:226-234 | unpacking a submission undoes packing it |
| `Messages.PackDispatch` | protocol/protocol.cpp:256-266 | unpacking undoes packing |
| `Messages.PackResume` | protocol/protocol.cpp:398-408 | unpacking undoes packing |
| `Messages.WorkerDispatchRoundTrip` | protocol/protocol.cpp:287-296 | unpacking undoes packing |
| `Messages.StartRoundTrip` | protocol/protocol.cpp:298-305 | unpacking undoes packing |
| `Messages.CompleteRoundTrip` | protocol/protocol.cpp:307-321 | unpacking undoes packing exactly for results up to 16 MiB and refuses longer ones |
| `MessageLayout.CompleteExactly` | protocol/protocol.cpp:307-321 | exactly which bytes unpack to a completion |
| `MessageLayout.ControlExactly` | protocol/protocol.cpp:168-183 | exactly which bytes unpack to a control request; the execution generation is not sent |
| `MessageLayout.HelloExactly` | protocol/protocol.cpp:184-197 | exactly which bytes unpack to a greeting |
| `MessageLayout.WorkerDispatchExactly` | protocol/protocol.cpp:287-297 | exactly which bytes unpack to an offer |
| `MessageLayout.AuthorityLayout` | protocol/protocol.cpp:107-113 | the bytes of the eleven ticket fields, in order |
| `MessageLayout.CompletionLayout` | protocol/protocol.cpp:139-148 | the bytes of a completion |
| `MessageLayout.ControlLayout` | protocol/protocol.cpp:168-174 | the bytes of a control request |
| `MessageMeaning.FrameMeans` | coordinator/coordinator.cpp:143-364 | a frame brings a message to the coordinator if and only if it has its kind and its packed bytes, for all fifteen messages |
| `MessageMeaning.IgnoredExactly` | coordinator/coordinator.cpp:143-364 | every other frame is ignored |
| `Wire.EncodeFrame` | protocol/protocol.cpp:65-74 | the writer produces the frame of the specification |
| `Wire.DecodeFrame` | protocol/protocol.cpp:76-99 | the reader accepts exactly what the specification does and reports how many bytes it took |
| `Wire.PackComplete` | protocol/protocol.cpp:307-312 | the writer produces the payload of the specification |
| `Wire.UnpackComplete` | protocol/protocol.cpp:313-321 | the reader accepts and returns exactly what the specification does |
| `Wire.UnpackStart` | protocol/protocol.cpp:301-305 | the reader accepts and returns exactly what the specification does |
| `Wire.UnpackWorkerDispatch` | protocol/protocol.cpp:291-296 | the reader accepts and returns exactly what the specification does |
| `Worker.Fallback` | worker/worker.cpp:79-84 | the made-up result is 4096 bytes counting up from the seed modulo 256 |
| `Worker.OnWorkerDispatch` | worker/worker.cpp:55-104 | the two frames carry the dispatch ticket unchanged, and the completion carries the result and its digest |
| `CoordinatorRuns.ActFollows` | coordinator/coordinator.cpp:143-364 | handling a message is a run of the engine operations it stands for, and the file afterwards is the old one or the one of the new records |
| `CoordinatorRuns.SavesExactly` | coordinator/coordinator.cpp:103-105 | which messages are stored: the file afterwards is that of the new records exactly for those, and the old one otherwise |
| `CoordinatorRuns.AckIsFirstAndSafe` | coordinator/coordinator.cpp:242-260 | when a commit is acknowledged the execution was not committed before, and it now is, with that digest, in memory and in the file |
| `CoordinatorRuns.RestartRecovers` | coordinator/coordinator.cpp:9-22 | a restart whose load succeeds has exactly the records that were saved |
| `CoordinatorRuns.LatchedInRun` | coordinator/coordinator.cpp:107-124 | induction over runs: what is sent once and makes a state safe is sent at most once, and the state stays safe |
| `CoordinatorRuns.CommitSafety` | coordinator/coordinator.cpp:103-260 | over every interleaving of messages and crash/restart in which reloads succeed, each execution has at most one acknowledged commit, and every acknowledged commit stays COMMITTED with the same digest in memory and in the file |
| `CoordinatorReplies.RepliesExactly` | coordinator/coordinator.cpp:170-330 | every message that makes the engine decide, other than a close, gets exactly one decision, of the acknowledgement kind of that message and with the code of the last engine operation |
| `CoordinatorReplies.RepliesInEveryRun` | coordinator/coordinator.cpp:143-364 | over every run the decisions sent are the engine's answers in order |
| `CoordinatorReplies.DownExactly` | coordinator/coordinator.cpp:192-230 | a message brings the process down if and only if it dispatches an unknown execution to a connected worker, and none changes its epoch |
| `CoordinatorReplies.OfferIsRemembered` | coordinator/coordinator.cpp:210-224 | after an offer the connection is marked with the execution and the attempt of the ticket |
| `CoordinatorReplies.ConnsKept` | coordinator/coordinator.cpp:298-321 | no message but a greeting, a dispatch and a close changes what is known about connections, so an offer made by a resume is not remembered |
| `CoordinatorReplies.CloseDecides` | coordinator/coordinator.cpp:126-141 | closing a worker connection is the loss of its active execution under its boot and the coordinator epoch, stored, and nothing else |
| `CoordinatorReplies.CloseLoses` | coordinator/coordinator.cpp:126-141 | closing moves the active execution to READY, AMBIGUOUS, CANCELLED or PREEMPTED and marks its attempt, exactly if the loss takes effect |
| `CoordinatorReplies.HelloIsRemembered` | coordinator/coordinator.cpp:146-165 | a greeting sets role, worker and boot of its connection and nothing else |
| `CoordinatorReplies.RestartDecides` | coordinator/coordinator.cpp:8-22 | a restart forgets the connections, keeps the file and takes the higher of the configured and the stored epoch |
| `EngineRuns.WordlessKept` | src/engine.cpp:268-279 | the engine puts no payload and no failure text into an attempt |
| `CoordinatorRecovery.LegibleExactly` | src/persistence.cpp:383-386 | for such records the reader's limits come down to a bound on a sum of counts and on the two clock texts |
| `CoordinatorRecovery.ReloadsExactly` | src/persistence.cpp:362-411 | the file of reachable records loads exactly if they are not too many, each is within that bound, and none is a requested cancellation without attempts |
| `CoordinatorRecovery.RestartInEveryRun` | coordinator/coordinator.cpp:9-22 | in every run from an installed machine the file is the one written for the records memory held after some k events and is unchanged since, and the next restart finds exactly those records, or nothing at all, by that condition |
| `CoordinatorRecovery.RestartAfterMessage` | coordinator/coordinator.cpp:103-105 | after a message that is stored, a restart has the records of memory if and only if they are all readable |
| `CoordinatorRecovery.CancelBeforeDispatchLosesAll` | src/engine.cpp:616-618 | cancelling a ready execution that was never dispatched is granted, and a restart then starts empty |
| `CoordinatorRecovery.SubmitThenCancelLosesAll` | src/engine.cpp:616-618 | the concrete run: submit one execution to an installed machine, cancel it, restart, and the machine is empty |
| `CoordinatorRecovery.CancelSpoilsForever` | src/engine.cpp:616-618 | from such a cancel on, whatever messages follow, the file does not load and a restart starts empty |
| `CoordinatorRecovery.SpoiltForever` | coordinator/coordinator.cpp:262-269 | no later sequence of messages makes such a file loadable again |
| `CoordinatorEpochs.FenceExactly` | coordinator/coordinator.cpp:9-22 | an engine above an epoch stays above it in every step but a restart for which neither the configured epoch nor anything in the file is above |
| `CoordinatorEpochs.OldEpochsNeverAct` | src/engine.cpp:321-330 | once the engine is above an epoch, as after a restart under a higher one, no start and no completion of that epoch is granted in any run without such a restart |
| `CoordinatorEpochs.UnsavedEpochForgotten` | coordinator/coordinator.cpp:16-20 | an epoch that was not saved is forgotten by a second restart |
| `CoordinatorEpochs.SavedEpochSticks` | coordinator/coordinator.cpp:16-20 | after one save every later restart that loads the file is above |
| `CoordinatorEpochs.FencedTicketRevived` | coordinator/coordinator.cpp:9-22 | a ticket that a restart under a higher epoch refuses is decided, after a second restart with nothing saved in between, as if the first had not been |
| `EpochWitness.FencedTicketCommits` | coordinator/coordinator.cpp:9-22 | the concrete run: hello, submit, dispatch, restart high (start and completion refused), restart low, and the old ticket starts and commits |
| `CoordinatorFencing.OvertakenAcrossRestarts` | coordinator/coordinator.cpp:103-105 | a ticket that is overtaken in memory and in the file is never again granted a start or a completion, over every interleaving with restarts in which reloads succeed |
| `CoordinatorFencing.OvertakingSurvivesExactly` | coordinator/coordinator.cpp:192-230 | an overtaking survives the next restart if and only if the message that did it is one that is stored; otherwise the ticket is current again |
| `CoordinatorFencing.RejectedDispatchIsNotStored` | src/engine.cpp:291-294 | the dispatch that a RESUMING execution rejects overtakes the resume ticket in memory and is not stored |
| `Coordinator.Coordinator.constructor` | coordinator/coordinator.cpp:9-22 | a new process takes the restart step of the state machine |
| `Coordinator.Coordinator.Persist` | coordinator/coordinator.cpp:103-105 | the file becomes the one of the present records and epoch |
| `Coordinator.Coordinator.FindWorker` | coordinator/coordinator.cpp:196-202 | some connection of the worker, in any order of the table, or 0 if there is none |
| `Coordinator.Coordinator.OnSubmit` | coordinator/coordinator.cpp:174-190 | takes the step of the state machine |
| `Coordinator.Coordinator.OnDispatch` | coordinator/coordinator.cpp:192-230 | takes the step of the state machine |
| `Coordinator.Coordinator.OnStart` | coordinator/coordinator.cpp:234-240 | takes the step of the state machine |
| `Coordinator.Coordinator.OnComplete` | coordinator/coordinator.cpp:242-260 | takes the step of the state machine |
| `Coordinator.Coordinator.OnRequest` | coordinator/coordinator.cpp:262-278 | takes the step of the state machine |
| `Coordinator.Coordinator.OnReport` | coordinator/coordinator.cpp:280-330 | takes the step of the state machine |
| `Coordinator.Coordinator.OnResume` | coordinator/coordinator.cpp:298-321 | takes the step of the state machine |
| `Coordinator.Coordinator.OnConnClosed` | coordinator/coordinator.cpp:126-141 | takes the step of the state machine |
| `Coordinator.Coordinator.Handle` | coordinator/coordinator.cpp:143-364 | takes the step of the state machine |
| `Coordinator.Coordinator.DecisionLoop` | coordinator/coordinator.cpp:107-124 | serving the queue from its front is the run of the state machine over it |
| `Coordinator.Serve` | coordinator/coordinator.cpp:107-124 | the same over the real file, so that the theorems about runs apply to the object |
| `EndToEnd.GrantedExactly` | src/engine.cpp:403-570 | a completion is granted if and only if it carries exactly the current authority, dispatch identity included, under the epoch of engine and record, with a result, in a state from which the table allows completion |
| `EndToEnd.AnswersCommit` | src/engine.cpp:369-398 | a start and a completion with the issued authority, with quiet operations around them: the start is granted, and the completion commits exactly under the record's own epoch |
| `EndToEnd.WorkTravels` | protocol/protocol.cpp:287-296 | the work a worker is offered passes through packing, framing and back unchanged |
| `EndToEnd.AnswersTravel` | worker/worker.cpp:55-104 | start and completion pass through packing, framing and back, and are understood with the ticket unchanged |
| `EndToEnd.WorkerCommits` | src/engine.cpp:481-570 | after a dispatch or resume, if nothing else touches the execution, what the worker sends back is understood and commits the digest of its result exactly if the record's epoch is the ticket's |
| `Journey.OfferIsIssued` | coordinator/coordinator.cpp:213-227 | work is offered to a worker only with the ticket the engine has just issued |
| `Journey.OffersExactly` | coordinator/coordinator.cpp:192-321 | work is offered if and only if the engine has issued a ticket for the request and the worker is connected, on that connection, with that ticket, size and seed |
| `Journey.StartFrameBrings` | worker/worker.cpp:55-73 | the worker's start frame reaches the coordinator as the start of that ticket |
| `Journey.CompleteFrameBrings` | worker/worker.cpp:86-104 | the worker's completion frame reaches the coordinator as the completion of that ticket with the digest of the result |
| `Journey.OfferedResult` | worker/worker.cpp:75-104 | for an offer the worker completes the offered ticket with the digest of what the executor makes of 4096 bytes and seed 0 after a dispatch, 7 after a resume, or without an executor of the 4096 bytes that count up from the seed |
| `Disconnection.OfferThenClose` | coordinator/coordinator.cpp:126-141 | after an offer the closing of that connection gives the execution back, READY with its attempt lost, exactly if the boots agree and the coordinator epoch is not older than the ticket; otherwise the record stays |
| `Journey.OfferIsCommitted` | coordinator/coordinator.cpp:192-260 | over coordinator events: after an offer, with any messages about other executions in between, the start is granted and the completion is acknowledged as a commit of its digest, then in memory and in the file, exactly if the record's epoch is the ticket's |
| `Journey.OfferInEveryRun` | coordinator/coordinator.cpp:192-260 | the same for every offer made in any run from an installed machine |

## Left out

- Decision reason texts, decision context fields, `to_string` tables and error messages: diagnostics only.
- The wire form of acknowledgements, welcome, register and query payloads: the same codec argument again on simpler layouts; the coordinator model records what is sent as values.
- Submit, dispatch, control, resume, loss and hello payloads are packed and unpacked on values, without a separate reader-object version, because they repeat the ticket codec.
- `all_executions`, `find` and UUID printing and parsing: easy beside the rest.
- Sockets, threads, mutexes and condition variables (protocol/transport.cpp): the queue is an arbitrary sequence of atomic handler steps.
- File reading, writing and replacement (src/persistence.cpp:33-65): a save is one atomic replacement that succeeds. On POSIX systems the code removes the target before renaming, so a crash between the two loses the file; the model does not cover that.
- A coordinator configured without a persistence path.
- Crashes in the middle of a handler, such as between sending work to a worker and saving.
- Collision resistance of the digest, and whether a message of several blocks could by chance get the standard's digest.
- Sha256.Hasher.Final: the compression function is a parameter of the hashing object, instantiated by `Sha256.DigestOfBuffer`; its loops are proved separately in `Sha256.CompressBlock`.
- CoordinatorRuns.CommitSafety: assumes that reloads succeed and that no length in the file exceeds 32 bits, because otherwise commits can be lost; the exact condition for reloads is `CoordinatorRecovery.RestartInEveryRun`.
- The CUDA code, proof drivers, tests, benchmarks, sample programs, tools and command-line mains.
