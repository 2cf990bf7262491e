# Verified model of the telemetry path

This Dafny project models the active telemetry path of the mission ground system and proves what it promises.
A payload numbers and encodes frames; a vendor delivers them over HTTP; the ground gateway records each delivery,
accepts the frame, keeps the sequence account and queues a job; payload workers claim jobs, decode the preserved bytes
again and store one result. The state lives in two stores that change in separate steps and can disagree at any moment:
database tables, changed by transactions, and Redis lists and markers, changed by scripts.

`dafny verify dfyconfig.toml` checks everything.

## How the files fit together

| part | files |
|---|---|
| bytes, checksum, frame and packet formats | `Wire`, `Checksum`, `FrameCodec`, `SpacePackets` |
| sequence decision and the per-session account | `SequenceRules`, `SequenceLedger` |
| one job row and all its histories | `JobLifecycle` |
| Redis lists, markers and scripts | `RedisQueue`, class in `QueueAdapter` |
| tables, transactions, their invariant and their outcomes | `Storage`, `StorageInvariant`, `TransactionEffects`, class in `Repository` |
| gateways, workers, lost answers and crashes as one state machine | `Pipeline`, `PipelineInvariant`, `PipelineSafety` |
| what holds in every run | `PipelineTheorems`, `PipelineJobs`, `PipelineResults`, `PipelineEvidence`, `PipelineRedecode` |
| a worker's own steps in every run | `PipelineSteps` |
| progress from every reachable state, runs worth knowing, work no one takes up again | `PipelineProgress`, `PipelineWitnesses`, `PipelineStranded` |
| request handler and start-up recovery | `GatewayFlow`, class in `GroundApi`, `GatewayRecovery`, `GatewayRuns`, `GatewayVerdicts`, `GatewayPromises` |
| the request handler among everything else that runs | `HandlerRuns`, `HandlerTheorems` |
| the worker loop | `WorkerFlow`, class in `PayloadWorker`, `WorkerRuns` |
| payload identities, restarts, damaged frames | `PayloadSource`, `SessionDelivery`, classes in `VendorSimulator` |
| from a sample to its stored result | `EndToEnd` |

A class method updates fields the way the source does, and its contract equates the new state and the returned value
with a specification function. The theorems are about those functions, about every sequence of transactions, and about
every interleaving of pipeline actions. `TransactionEffects`, `GatewayVerdicts` and `PipelineSteps` say what each
transaction, each request and each worker step does in terms of rows, bytes and literal numbers, independent of the
functions that define them. `GatewayRuns` and `WorkerRuns` close the circle: an uninterrupted request,
recovery or loop turn is itself a run of the pipeline, so the invariants hold between its steps too, where a crash can fall.
`HandlerRuns` goes further for the request: its control flow is a machine of its own whose steps interleave with anything.

## What the model assumes

* Each repository transaction is atomic and the transactions are serial. The code reads the packet row before it locks
  the sequence row, so nothing is claimed for weaker isolation.
* Each Redis script is atomic. Redis loses nothing while the pipeline runs; total loss is treated in `GatewayRecovery`,
  `WorkerFlow` and `PipelineStranded`.
* One clock, in whole microseconds since 1970, that never goes back.
* SHA-256 is an arbitrary function `sha`: equal bytes have equal digests, and nothing more is used.
* Receipt, job and worker identifiers are fresh. Receipts and jobs are identified by their place in order of creation;
  the packet identifier text stands for the key (payload, boot, sequence).
* The display and health values of a result are a function of the frame and the receipt time, so a result is represented
  by these two.
* A step of a worker can take effect and lose its answer; then the worker goes the way of the code's error handling. Any
  process can stop between any two steps.
* The gateway's steps may interleave more freely in the state machine than the handler's control flow allows; the order of
  one handler's own steps is that of `HandlerRuns`.

## What the proofs found

* A request that is replayed is decoded at its own time, while the worker decodes at the stored, earlier receipt time. A
  frame sampled a little too far in the future can therefore be answered as queued and then fail permanently at its first
  attempt. `PipelineWitnesses.ReplayedRequestCanFail` is such a run; `PipelineRedecode.IntegrityCheckIff` says exactly
  when it happens, and `PipelineRedecode.SameRequestAgrees` that it cannot happen when one request both records and accepts.
* `attempt_count` can exceed `max_attempts` by any amount through lease takeovers
  (`PipelineWitnesses.TakeoversExceedAnyLimitInRuns`); claims of waiting work cannot.
* The missing counter minus the late packets is the number of holes exactly when the high-water mark never wrapped and
  no accepted number lies above it (`SequenceLedger.HoleCountIff`). Below half the number range that is always so; beyond
  it `SequenceLedger.HalfRangeMiscounts` shows a count of minus one.
* A request whose frame was answered with SEQUENCE_CONFLICT raises an error when it is replayed, instead of telling the
  conflict again; so does the replay of an accepted delivery that is not queued yet, if its headers are bad
  (`GatewayVerdicts.ReplayOutcome`).
* At a distance of exactly 2^31 each of two numbers is late after the other.
* The SEQUENCE_STATE_CONFLICT branch and a worker's conflict with an existing result are unreachable.
* A DUPLICATE receipt never gets the queue status QUEUED, so that half of the replay test
  (mission_ground/services/ground_api.py:328-332) never applies.
* Recovery after loss of Redis leaves PROCESSING jobs and retries that are not due without a reference
  (`GatewayRecovery.NotRebuilt`), and no later recovery, worker, redelivery or request takes a PROCESSING job up again
  (`PipelineStranded.LossStrandsWork`, `HandlerTheorems.LateRequestLeavesStranded`). With more recoverable jobs than the limit, another recovery at the same time finds the
  same ones (`GatewayRecovery.SecondRecoveryIsIdle`).
* The longest payload of a variable-length space packet is 65,532 bytes: with four checksum bytes a longer one does not
  fit the 16-bit length field.

## Model

| member | source | states |
|---|---|---|
| FrameCodec.EncodeIffValid | mission_ground/telemetry/codec.py:220-244 | encoding succeeds exactly for frames within every version 1 field rule, stamped no later than five minutes after the receipt time if one is given |
| FrameCodec.EncodeUnnamedIff | mission_ground/telemetry/codec.py:152-217 | the encoder refuses without a name exactly the values that the 32-bit sequence, the 64-bit time or the flag byte cannot hold, where no named rule comes first |
| FrameCodec.DecodeInvertsEncode | mission_ground/telemetry/codec.py:247-312 | decoding the wire form of a valid frame gives the frame back |
| FrameCodec.EncodeInvertsDecode | mission_ground/telemetry/codec.py:247-312 | accepted bytes are the wire form of the valid frame they decode to |
| FrameCodec.AcceptedSet | mission_ground/telemetry/codec.py:247-312 | the accepted byte strings at time t are exactly the wire forms of valid frames stamped by t plus five minutes |
| FrameCodec.RejectionNamesFirstRule | mission_ground/telemetry/codec.py:152-217 | every refused byte string is refused by name, and the name is rule R exactly if R is the first rule, in the interface's order, that the bytes break |
| FrameCodec.RedecodeIff | mission_ground/telemetry/codec.py:190-196 | bytes accepted at one time decode to the same values at another time if stamped early enough for it, and are too far in the future otherwise |
| FrameCodec.GoldenVector | docs/INTERFACE_CONTROL_DOCUMENT.md:331-357 | the golden bytes decode to the golden frame, and the frame encodes to these bytes |
| FrameCodec.BurstIsCrcMismatch | mission_ground/telemetry/codec.py:267-273 | any change of a valid frame within four consecutive bytes of offsets 1 to 23 decodes to CRC_MISMATCH |
| FrameCodec.ChecksumChangeIsCrcMismatch | mission_ground/telemetry/codec.py:267-273 | any change of the checksum field alone decodes to CRC_MISMATCH |
| FrameCodec.VersionChangeIsUnsupported | mission_ground/telemetry/codec.py:253-259 | any change of byte 0, with whatever else, decodes to UNSUPPORTED_PROTOCOL_VERSION |
| Checksum.BurstChangesCrc | mission_ground/telemetry/codec.py:130-133 | two messages that differ only within four consecutive bytes have different checksums |
| Checksum.CheckValue | docs/INTERFACE_CONTROL_DOCUMENT.md:313-329 | the standard check value of the profile |
| SpacePackets.EncodeIffValid | mission_ground/common/packet.py:62-76 | a space packet is encoded exactly if apid, count and type are in range and the payload has 1 to 65,532 bytes |
| SpacePackets.EncodeRefusal | mission_ground/common/packet.py:55-76 | what is not encoded is refused for the first field out of range |
| SpacePackets.WireLayout | mission_ground/common/packet.py:62-76 | where type, flags, APID, count, length, payload and checksum of every valid packet go |
| SpacePackets.AcceptedIff | mission_ground/common/packet.py:79-101 | exactly the strings of at least 11 bytes with a fitting length field, a matching checksum and version 0 are packets |
| SpacePackets.DecodeRefusal | mission_ground/common/packet.py:79-96 | what is no packet is refused for length, length field, checksum and version, in that order |
| SpacePackets.DecodeInvertsEncode | mission_ground/common/packet.py:62-101 | decoding inverts encoding for every valid packet |
| SpacePackets.ReencodeIff | mission_ground/common/packet.py:79-101 | a decoded packet encodes to the original bytes exactly if the secondary-header flag is 1 and the sequence flags are 3 |
| SequenceRules.AheadIsOneSided | mission_ground/telemetry/sequence.py:113-143 | of two different numbers at most one advances past the other, and neither does exactly at distance 2^31 |
| SequenceRules.DecisionOutcome | mission_ground/telemetry/sequence.py:60-143 | the whole decision and every refusal in plain comparisons: known or in conflict by the bytes, else first, in order, after a gap or late by how far the number lies ahead of the mark |
| SequenceLedger.PlaceIffPlaced | mission_ground/telemetry/sequence.py:99-143 | the modular rule agrees with plain comparisons, and refuses exactly the high-water number itself |
| SequenceLedger.RowCounts | mission_ground/telemetry/storage.py:1009-1033 | for every order of arrival: accepted count, missing sum, high-water mark, and missing + accepted - late = high-water + 1 + 2^32 per wrap |
| SequenceLedger.Conservation | mission_ground/telemetry/storage.py:1009-1033 | missing + accepted - late is congruent to high-water + 1 modulo 2^32 |
| SequenceLedger.HoleCountIff | mission_ground/telemetry/storage.py:951-1033 | missing - late counts the holes exactly if the mark never wrapped and no accepted number is above it |
| SequenceLedger.ExactHoleCount | mission_ground/telemetry/storage.py:951-1033 | below 2^31 the mark is the largest accepted number and missing - late is the number of holes, in any order of arrival |
| SequenceLedger.HalfRangeMiscounts | mission_ground/telemetry/storage.py:978-993 | at 2^31 the hole count goes wrong |
| JobLifecycle.AttemptAccounting | mission_ground/telemetry/storage.py:1213-1246 | over every history: attempts = fresh claims + takeovers, fresh claims are limited by max_attempts |
| JobLifecycle.TakeoversExceedAnyLimit | mission_ground/telemetry/storage.py:1213-1243 | takeovers of leases of any length drive attempt_count to any height with one fresh claim |
| PipelineWitnesses.TakeoversExceedAnyLimitInRuns | mission_ground/telemetry/storage.py:1213-1243 | the same as a run of the pipeline for every limit and every height: each worker in turn crashes, its 60-second lease runs out, the next one starts and claims |
| JobLifecycle.MeasureDecreases | mission_ground/telemetry/storage.py:1184-1416 | every event that changes a row lowers a natural-number measure, except a takeover, which never raises it |
| JobLifecycle.FewChanges | mission_ground/telemetry/storage.py:1184-1416 | over every history: changes + measure left at the end are at most the measure at the start + takeovers |
| JobLifecycle.CanFinish | mission_ground/telemetry/storage.py:1184-1416 | from every consistent row, also one past its limit, a history without takeovers and no longer than the measure ends in COMPLETE or FAILED |
| PipelineProgress.EveryJobCanFinish | mission_ground/services/payload_worker.py:98-263 | from every reachable state every unfinished job can still be settled by gateways, clock and a new worker: COMPLETE with its result if its packet is in time, FAILED with its reference kept if not |
| JobLifecycle.TerminalIsFinal | mission_ground/telemetry/storage.py:1184-1416 | COMPLETE and FAILED rows never change again |
| JobLifecycle.BackoffDoubles | mission_ground/telemetry/storage.py:1388-1393 | delays double from the base up to 300 seconds |
| JobLifecycle.FailureSchedulesRetry | mission_ground/telemetry/storage.py:1378-1393 | a temporary failure with attempts left sets the row to RETRY_WAIT due exactly after the delay of the attempt, at least a second, and a claim is possible from that microsecond on and not before |
| JobLifecycle.WaitsUntilDue | mission_ground/telemetry/storage.py:1213-1246 | no history of claims before the due time, reports and completions changes a waiting row |
| JobLifecycle.BackoffBound | mission_ground/telemetry/storage.py:1378-1393 | read off the rows of any history: delays never decrease, the n-th is at least the base doubled n - 1 times, capped at 300 seconds, and exactly that without takeovers; their sum stays within base * (2^(max-1) - 1) and 300 * (max - 1) seconds |
| RedisQueue.QueueConserves | mission_ground/telemetry/queue.py:21-67 | over every script history: listed + acknowledged = initially listed + enqueued, each message in one list once and marked exactly if listed |
| RedisQueue.ClaimsFollowEnqueues | mission_ground/telemetry/queue.py:203-236 | unless something is put back, messages are handed out in the order of the enqueues |
| RedisQueue.RetryGoesLast | mission_ground/telemetry/queue.py:42-48 | a returned message waits behind all pending work |
| RedisQueue.RecoveryOrder | mission_ground/telemetry/queue.py:58-67 | after a recovery the waiting work is claimed first, then the stranded work, oldest first |
| RedisQueue.EnqueueOutcome | mission_ground/telemetry/queue.py:21-32 | every answer: an unmarked job gets one reference behind all others, the same message and another packet under its job change nothing |
| RedisQueue.ClaimOutcome | mission_ground/telemetry/queue.py:222-254 | the oldest entry goes to processing, or to the failed list if it is no message |
| RedisQueue.SettleOutcome | mission_ground/telemetry/queue.py:34-56 | acknowledging, returning and dead-lettering take exactly the first occurrence out of processing to where it belongs, or change nothing |
| QueueAdapter.TelemetryQueue.Enqueue | mission_ground/telemetry/queue.py:203-220 | adds an unmarked message, reports an exact repetition, raises on a different packet under the same job |
| QueueAdapter.TelemetryQueue.Claim | mission_ground/telemetry/queue.py:222-254 | moves the oldest entry to processing; bytes that are no message go to the failed list |
| QueueAdapter.TelemetryQueue.Ack | mission_ground/telemetry/queue.py:256-274 | removes the message and its marker, or raises and changes nothing |
| QueueAdapter.TelemetryQueue.Retry | mission_ground/telemetry/queue.py:281-294 | returns the message to pending with its marker, or raises and changes nothing |
| QueueAdapter.TelemetryQueue.DeadLetter | mission_ground/telemetry/queue.py:296-309 | moves the message to the failed list with its marker, or raises and changes nothing |
| QueueAdapter.TelemetryQueue.RecoverProcessing | mission_ground/telemetry/queue.py:311-321 | the drain loop yields processing ++ pending and counts what it moved |
| StorageInvariant.RequestIdIsIdempotent | mission_ground/telemetry/storage.py:634-720 | a request id belongs to its first bytes: the same bytes find the first receipt and change nothing, other bytes become conflicting evidence |
| StorageInvariant.RejectionSticks | mission_ground/telemetry/storage.py:738-773 | a rejection is final, its repetition is a replay, and a rejected delivery cannot be accepted |
| StorageInvariant.RecordKeepsDbOk | mission_ground/telemetry/storage.py:602-726 | recording keeps the table invariant and edits no earlier evidence |
| StorageInvariant.AcceptKeepsDbOk | mission_ground/telemetry/storage.py:775-1073 | acceptance keeps the table invariant and undoes no decision |
| StorageInvariant.NewKeyIsPlaced | mission_ground/telemetry/storage.py:946-993 | a key that is not stored never meets its session's high-water mark, so it is always placed |
| StorageInvariant.MarkKeepsDbOk | mission_ground/telemetry/storage.py:1075-1129 | marking keeps the table invariant, with the receipts' queue status |
| StorageInvariant.ClaimEffect | mission_ground/telemetry/storage.py:1184-1272 | a claim succeeds exactly on claimable work, changes only that row and shows the packet and its original receipt |
| StorageInvariant.CompleteEffect | mission_ground/telemetry/storage.py:1274-1341 | only the owner of a job without a result changes anything; success means the job is complete |
| StorageInvariant.FailEffect | mission_ground/telemetry/storage.py:1343-1416 | only the owner changes anything, to FAILED or RETRY_WAIT of the same attempt |
| TransactionEffects.RecordOutcome | mission_ground/telemetry/storage.py:602-726 | every delivery: too large, first under its request id, a replay of the first one's bytes, or conflicting evidence; only bytes decide, and the first receipt with a request id owns it for good |
| TransactionEffects.RejectOutcome | mission_ground/telemetry/storage.py:728-773 | every rejection: only pending deliveries change, the same reason again is a replay, all else is refused |
| TransactionEffects.AcceptRefused | mission_ground/telemetry/storage.py:775-859 | exactly which acceptances are refused, and with which error; these change nothing |
| TransactionEffects.AcceptedBefore | mission_ground/telemetry/storage.py:818-855 | a delivery accepted or known before is answered from the packet with its bytes and the job as it stands |
| TransactionEffects.AcceptStored | mission_ground/telemetry/storage.py:860-944 | under a stored key the bytes alone decide between known and conflict, and only the receipt changes |
| TransactionEffects.AcceptNew | mission_ground/telemetry/storage.py:945-1073 | a new key adds one packet with these values, one new job and one step of its own session, and accepts the receipt |
| TransactionEffects.MarkOutcome | mission_ground/telemetry/storage.py:1075-1129 | every mark: waiting work moves and its accepted receipts learn it, queued work is found done, the rest is refused |
| TransactionEffects.ClaimOutcome | mission_ground/telemetry/storage.py:1184-1272 | exactly queued work, run-out leases and due retries are claimed, for the lease asked for, with packet and original receipt |
| TransactionEffects.CompleteOutcome | mission_ground/telemetry/storage.py:1274-1341 | the owner completes; afterwards the stored result is found again by anyone and another one is a conflict; nothing else changes anything |
| TransactionEffects.FailOutcome | mission_ground/telemetry/storage.py:1343-1416 | the owner's failure is retried at now + delay if temporary with attempts left, and final otherwise; a failed job stays, everyone else is refused |
| TransactionEffects.RecoverableOutcome | mission_ground/telemetry/storage.py:1154-1182 | the list holds, in order of creation and up to the limit, exactly the jobs that are PENDING_QUEUE, QUEUED, or RETRY_WAIT and due; limits outside 1 to 10,000 are refused |
| Repository.TelemetryRepository.RecordDelivery | mission_ground/telemetry/storage.py:602-726 | the transaction in place: tables and answer as specified, invariant kept |
| Repository.TelemetryRepository.RejectDelivery | mission_ground/telemetry/storage.py:728-773 | the same for a rejection |
| Repository.TelemetryRepository.AcceptPacketAndCreateJob | mission_ground/telemetry/storage.py:775-806 | the same for an acceptance |
| Repository.TelemetryRepository.PlaceNewPacket | mission_ground/telemetry/storage.py:945-1073 | the inline sequence arithmetic and row updates do what the pure algorithm decides |
| Repository.TelemetryRepository.MarkJobQueued | mission_ground/telemetry/storage.py:1075-1129 | the same for marking |
| Repository.TelemetryRepository.TellReceipts | mission_ground/telemetry/storage.py:1109-1119 | the loop gives exactly the accepted receipts of the packet the queue status QUEUED |
| Repository.TelemetryRepository.RecoverableQueueJobs | mission_ground/telemetry/storage.py:1154-1182 | the loop lists, in order of creation and up to the limit, exactly the jobs that are PENDING_QUEUE, QUEUED, or RETRY_WAIT and due |
| Repository.TelemetryRepository.ClaimProcessingJob | mission_ground/telemetry/storage.py:1184-1272 | the same for a claim |
| Repository.TelemetryRepository.CompleteProcessingJob | mission_ground/telemetry/storage.py:1274-1341 | the same for a completion |
| Repository.TelemetryRepository.FailProcessingAttempt | mission_ground/telemetry/storage.py:1343-1416 | the same for a failed attempt |
| PipelineSafety.StepKeepsTables | mission_ground/telemetry/storage.py:602-1416 | whatever became of Redis and the processes, every action keeps the table invariant and undoes nothing in the tables |
| PipelineSafety.StepKeeps | mission_ground/services/payload_worker.py:78-263 | every action of gateways, workers, clock and crashes keeps the invariant over both stores and all local positions |
| PipelineSafety.RunKeeps | mission_ground/services/payload_worker.py:98-263 | so does every run, and no run undoes evidence, decisions or results |
| PipelineTheorems.NoLostWork | mission_ground/services/payload_worker.py:78-263 | in every run a QUEUED, PROCESSING or RETRY_WAIT job has its message exactly once in pending or processing and marked; failed messages belong to FAILED jobs; unmarked jobs are PENDING_QUEUE or COMPLETE |
| PipelineTheorems.ExactlyOnceResult | mission_ground/telemetry/storage.py:1184-1416 | between any two points of any run: COMPLETE exactly if there is a result, results never change, finished jobs never change, a FAILED job never gains a result |
| PipelineResults.ResultsAreDetermined | mission_ground/services/payload_worker.py:152-172 | in every run every result is the one that the packet's bytes and receipt time determine, whichever worker stored it |
| PipelineResults.NoResultConflict | mission_ground/telemetry/storage.py:1290-1301 | in every run a worker that stores its result never meets a different one |
| PipelineResults.LateResultIsAcknowledged | mission_ground/services/payload_worker.py:152-191 | in every run a worker storing its result succeeds exactly if it still owns the work or the work is complete; a late one changes no table and goes on to acknowledge and to its next turn |
| PipelineSteps.ClaimInRuns | mission_ground/services/payload_worker.py:139-150 | in every run a worker gets exactly work that is queued, due or has lost its lease, for one minute, with the packet's original receipt |
| PipelineSteps.FailureInRuns | mission_ground/services/payload_worker.py:226-263 | in every run a reported failure makes the job due after 1, 2, 4, ... seconds up to five minutes and puts the message last, or fails the job and keeps the message in the failed list; a worker that lost the work ends |
| PipelineSteps.ErrorBeforeWorkReturns | mission_ground/services/payload_worker.py:193-225 | an error before any work is known puts the message back behind all waiting work, and the worker goes on |
| PipelineSteps.ErrorInWorkIsReported | mission_ground/services/payload_worker.py:193-263 | an error at work is reported as temporary; a report that is lost leaves the message where it is |
| PipelineSteps.UnclaimedSettles | mission_ground/services/payload_worker.py:78-95 | a message that could not be claimed is dealt with if the script finds it, and otherwise treated as after an error |
| PipelineSteps.LostAnswerIsDone | mission_ground/services/payload_worker.py:98-263 | a step whose answer is lost has done to both stores what it does otherwise |
| PipelineTheorems.LeaseExclusivity | mission_ground/telemetry/storage.py:1213-1242 | no two workers hold unexpired claims on one job |
| PipelineTheorems.TakenOverWritesNothing | mission_ground/telemetry/storage.py:1302-1307 | no step of a worker whose claim was overtaken changes the tables |
| PipelineTheorems.TakenOverStaysSo | mission_ground/telemetry/storage.py:1239-1243 | an overtaken attempt never becomes current again |
| PipelineJobs.JobHistory | mission_ground/telemetry/storage.py:1075-1416 | in every run a job row is the replay of the job's own history from a new row |
| PipelineJobs.AttemptsInRuns | mission_ground/telemetry/storage.py:1213-1243 | in every run: attempts = fresh claims + takeovers, at most max_attempts fresh claims, waiting jobs have an attempt left |
| PipelineJobs.DelaysInRuns | mission_ground/telemetry/storage.py:1378-1393 | in every run, read off the job rows: delays never decrease, the n-th is at least 2^(n-1) seconds capped at five minutes, and exactly that without takeovers; both sums are bounded |
| PipelineJobs.ChangesInRuns | mission_ground/telemetry/storage.py:1184-1416 | in every run a job row changes at most 4 * max_attempts + 2 times, and once more for each takeover |
| PipelineEvidence.OneToOne | mission_ground/telemetry/storage.py:808-1073 | accepted receipts, packets and jobs correspond one to one, with equal counts |
| PipelineEvidence.PacketTableIsFirstWins | mission_ground/telemetry/storage.py:860-951 | in every run the packet table is the first-wins map from key to bytes over the decided frames |
| PipelineEvidence.AcceptRefinesDecideSequence | mission_ground/telemetry/storage.py:860-993 | acceptance has the disposition, missing count, next high-water mark and duplicate or conflict verdict of decide_sequence, which never refuses |
| PipelineEvidence.AcceptRefinesInRuns | mission_ground/telemetry/storage.py:860-993 | the same in every reachable state; SEQUENCE_STATE_CONFLICT is unreachable |
| PipelineEvidence.SequenceAccountInRuns | mission_ground/telemetry/storage.py:951-1033 | in every run each sequence row is an exact account of its session's packets |
| PipelineRedecode.IntegrityCheckIff | mission_ground/services/payload_worker.py:152-156 | in every run the worker's check fails exactly for packets stamped too late for their own receipt time |
| PipelineRedecode.SameRequestAgrees | mission_ground/services/ground_api.py:405-438 | a packet accepted by the request that recorded it is in time forever, and its preserved bytes decode at the stored receipt time to exactly the stored values |
| PipelineRedecode.FinishedOnlyForReason | mission_ground/telemetry/storage.py:1378-1386 | in every run a FAILED job used all attempts or has a packet out of time, and a COMPLETE job has a packet in time |
| PipelineWitnesses.ReplayedRequestCanFail | mission_ground/services/ground_api.py:282-295 | a run in which a replayed request is queued and fails permanently at attempt 1 of 3 |
| GroundApi.Gateway.QueueOne | mission_ground/services/ground_api.py:158-170 | enqueue, then mark; a refused mark leaves the reference and the tables as they are |
| GroundApi.Gateway.RecoverPendingJobs | mission_ground/services/ground_api.py:173-189 | the loop queues the listed jobs in turn and counts those that moved |
| GroundApi.Gateway.ReceivePayloadData | mission_ground/services/ground_api.py:282-512 | stores and answer after one request |
| GroundApi.Gateway.Proceed | mission_ground/services/ground_api.py:300-403 | conflict, settled replay, header refusals and requeueing, in the handler's order |
| GroundApi.Gateway.Decide | mission_ground/services/ground_api.py:405-438 | decode, then refuse by name or accept |
| GroundApi.Gateway.AnswerAcceptance | mission_ground/services/ground_api.py:439-512 | conflict, duplicate with requeueing, or queueing of the new job |
| GatewayRecovery.RecoveryEffect | mission_ground/services/ground_api.py:173-189 | recovery cannot fail; it moves exactly the listed rows that were not QUEUED, counts them and appends exactly the missing references |
| GatewayRecovery.RestartRebuild | mission_ground/services/ground_api.py:173-189 | from an empty Redis every recoverable job within the limit becomes QUEUED with exactly one reference, in order of creation, and nothing else is there |
| GatewayRecovery.RebuiltIff | mission_ground/services/ground_api.py:173-189 | after total loss a job is QUEUED with exactly one reference if it was PENDING_QUEUE, QUEUED, or RETRY_WAIT and due, and among the first of these up to the limit; every other job is as it was and has no reference |
| GatewayRecovery.SecondRecoveryIsIdle | mission_ground/services/ground_api.py:173-189 | another recovery at the same time changes nothing and returns 0 |
| GatewayRecovery.NotRebuilt | mission_ground/telemetry/storage.py:1166-1179 | PROCESSING jobs and retries not due stay without a reference |
| PipelineStranded.StrandedForever | mission_ground/telemetry/storage.py:1166-1179 | a PROCESSING row with no reference, no worker and no open gateway never changes in any continuation in which no request queues that job: recoveries, workers, expired leases and redeliveries included |
| PipelineStranded.LossStrandsWork | mission_ground/services/ground_api.py:173-189 | so after a loss of Redis and of all processes the work in progress stays as it was in every such continuation |
| HandlerTheorems.LateRequestLeavesStranded | mission_ground/services/ground_api.py:282-512 | a request that arrives after the loss, replay or redelivery of that frame included, does not take the stranded job up, however its steps interleave |
| GatewayRuns.HandleIsRun | mission_ground/services/ground_api.py:282-512 | an uninterrupted request is a run of the pipeline |
| GatewayRuns.RecoveryIsRun | mission_ground/services/ground_api.py:173-189 | an uninterrupted recovery is a run of the pipeline |
| GatewayPromises.AcknowledgedIsOnRecord | mission_ground/services/ground_api.py:328-512 | every 200 or 202 answer of an undisturbed request is true: the bytes are stored under the named packet and its job has left PENDING_QUEUE |
| HandlerRuns.InterleavedAnswerIsTruthful | mission_ground/services/ground_api.py:282-512 | from every reachable state, with any actions of other requests, gateways, workers, clock and crashes between its steps: whenever the handler has answered 200 or 202, the answer is true, and stays true |
| HandlerTheorems.UndisturbedIsHandle | mission_ground/services/ground_api.py:282-512 | without others in between, the steps of that handler give the stores and the answer of the request handler |
| GatewayVerdicts.FirstDeliveryOutcome | mission_ground/services/ground_api.py:282-512 | the whole outcome of a first delivery with any bytes and headers: too large and not recorded; or on record and refused for its content type, its request id or the first broken rule, or taken up and queued, known, or in conflict; and nothing else changes in either store |
| GatewayVerdicts.ReplayOutcome | mission_ground/services/ground_api.py:300-403 | the whole outcome of a repeated request id: other bytes are a conflict; a rejection is told again; an accepted frame is told as queued or queued now; a known one is known; one in conflict raises; a pending one is judged now |
| GatewayVerdicts.QueueingOutcome | mission_ground/services/ground_api.py:158-170 | queueing in every state of a job: the message is there once in any case, the row moves only if the work waits, and another packet under the job changes nothing |
| GatewayVerdicts.ReachableDesk | mission_ground/services/ground_api.py:282-512 | every reachable state of the pipeline meets what these outcomes assume |
| GatewayPromises.RedeliveryAddsNothing | mission_ground/telemetry/storage.py:634-724 | redelivering a stored frame any number of times, under any request ids, adds no packet or job and leaves sequences and results alone |
| WorkerFlow.TurnCompletes | mission_ground/services/payload_worker.py:114-207 | one loop turn completes any claimable job in time, stores its result and removes reference and marker |
| WorkerFlow.TurnFailsOutOfTime | mission_ground/services/payload_worker.py:152-252 | one loop turn on a claimable job out of time fails it for good and keeps the reference in the failed list |
| WorkerFlow.TurnSetsAside | mission_ground/services/payload_worker.py:78-95 | one loop turn on a message whose job cannot be claimed removes it if COMPLETE, moves it to the failed list if FAILED, puts it back behind all others if not, and leaves the tables alone |
| WorkerFlow.TurnReturnsUnknown | mission_ground/services/payload_worker.py:139-225 | a message whose job is not in the table goes back behind all others, and the worker goes on |
| WorkerFlow.TurnQuarantines | mission_ground/telemetry/queue.py:222-254 | one loop turn moves an entry that is no message to the failed list, and the worker goes on |
| WorkerFlow.QueueIsDrained | mission_ground/services/payload_worker.py:98-263 | whatever pending holds, as many turns as messages settle every claimable job in it: complete with its result if in time, failed with its reference kept if not; only messages whose time has not come stay, and the worker goes on |
| WorkerFlow.RecoveredWorkSettles | mission_ground/services/ground_api.py:173-189 | after total loss of Redis, one recovery and one worker settle every recoverable job within the limit: complete if in time, failed for good if not, whatever the others are; nothing is left waiting |
| PayloadWorker.WorkerProcess.constructor | mission_ground/services/payload_worker.py:98-104 | a new process first returns all stranded work |
| PayloadWorker.WorkerProcess.RunOnce | mission_ground/services/payload_worker.py:114-263 | one turn of the loop, with a time of its own for the claim, the result and the failure |
| PayloadWorker.WorkerProcess.HandleMessage | mission_ground/services/payload_worker.py:139-150 | claim, or return or finish what cannot be claimed |
| PayloadWorker.WorkerProcess.ReturnOrFinishUnclaimed | mission_ground/services/payload_worker.py:78-95 | complete work is acknowledged, failed work dead-lettered, the rest kept |
| PayloadWorker.WorkerProcess.ProcessWork | mission_ground/services/payload_worker.py:152-191 | decode again, complete, acknowledge; a failed acknowledgement does not undo success |
| PayloadWorker.WorkerProcess.ReportFailure | mission_ground/services/payload_worker.py:226-263 | record the failure, then dead-letter or retry |
| PayloadWorker.WorkerProcess.Run | mission_ground/services/payload_worker.py:114-263 | the loop over any number of messages: the stores it leaves, also when an error has ended the process, and whether it goes on |
| WorkerRuns.TurnIsRun | mission_ground/services/payload_worker.py:114-263 | an uninterrupted turn is a run of the pipeline, the clock moving between its steps |
| WorkerRuns.TurnsAreRun | mission_ground/services/payload_worker.py:114-263 | so are any number of turns of a worker that goes on |
| PayloadSource.FloorRises | mission_ground/services/vendor_simulator.py:89-114 | no event, failed write or restart lets an identity come back |
| PayloadSource.IdentitiesIncrease | mission_ground/services/vendor_simulator.py:89-181 | emitted (boot, sequence) pairs strictly increase over every history |
| PayloadSource.MakeFrameEffect | mission_ground/services/vendor_simulator.py:89-114 | a valid sample gives a frame with exactly its readings under the next number, or number 0 of the next boot; an invalid one uses the number up; no frame when no next boot can begin |
| PayloadSource.EmittedBytesArrive | mission_ground/services/vendor_simulator.py:98-114 | the emitted bytes decode, at any time by which the sample is stamped, to the sample's own fields under the new identity |
| PayloadSource.NextBootNumber | mission_ground/services/vendor_simulator.py:162-180 | a start takes the file's number plus one, or 1 without one, and writes it first; an unsafe or unreadable file or a failed write starts nothing |
| PayloadSource.SessionNumbers | mission_ground/services/vendor_simulator.py:98-114 | within a session the numbers rise by one, or by two over a skip, and nothing else is missing |
| SessionDelivery.InOrderArrivals | mission_ground/telemetry/storage.py:951-1033 | numbers arriving in order are all placed, none late, and exactly those passed over are missing |
| SessionDelivery.SessionArrivesInOrder | mission_ground/services/vendor_simulator.py:89-114 | a whole session delivered in order is never late, duplicate or in conflict, and its missing count is its skips without rollover |
| SessionDelivery.SessionInOrderInRuns | mission_ground/telemetry/storage.py:911-1033 | in every run, whatever else arrives or crashes: frames of a session decided in order are all accepted, none late, and the row counts exactly the numbers passed over as missing |
| SessionDelivery.EmittedSessionInRuns | mission_ground/services/vendor_simulator.py:89-114 | in every run that decides a session's emitted frames in order, the missing count is the session's skips that did not roll it over |
| SessionDelivery.NextFrameIsAccepted | mission_ground/telemetry/storage.py:911-1073 | the same at the tables: the next frame in order is accepted |
| VendorSimulator.LoadNextBootId | mission_ground/services/vendor_simulator.py:162-180 | the next boot number, with the file rewritten, or an error and the old file |
| VendorSimulator.PayloadSimulator.RollSessionIfNeeded | mission_ground/services/vendor_simulator.py:89-96 | rollover in place, including a failed write |
| VendorSimulator.PayloadSimulator.MakeFrame | mission_ground/services/vendor_simulator.py:98-114 | numbering in place; what is returned is the wire form of a valid frame with the fields of the sample and the identity just used |
| VendorSimulator.ApplyWireFailure | mission_ground/services/vendor_simulator.py:183-191 | CORRUPT_CRC always decodes to CRC_MISMATCH and UNSUPPORTED_VERSION to UNSUPPORTED_PROTOCOL_VERSION; other modes change nothing |
| EndToEnd.FrameReachesResult | mission_ground/services/ground_api.py:282-512 | a new valid frame, sent once and worked off with whatever waits already, is answered as queued and ends as the stored result of exactly that frame and receipt time |
| EndToEnd.SampleReachesResult | mission_ground/services/vendor_simulator.py:98-114 | so every sample the payload emits is stored with its own time, readings, mode and flags, under the identity the payload gave it |

## Left out

- HTTP routing, headers, tokens, JSON bodies, logging, metrics, audit rows, configuration and read-only endpoints: no invariant depends on them; the handler keeps its decisions and the order of its steps.
- SQLAlchemy sessions, row locks, uniqueness races and their one retry: transactions are atomic and serial, so the races cannot arise.
- Sleeps and timeouts: only their effect on the clock is modelled.
- Columns that only inform (update times, error texts, parsed identifiers, peer identity, claim and completion times): nothing reads them back on this path.
- The JSON form of a queue message: a message is the pair of job and packet key, and other bytes are malformed entries.
- `pending_queue_jobs`: no caller on this path uses it.
- Float display values, unit scaling and health thresholds: integers in wire units are kept, and the result is a function of the frame and the receipt time.
- The vendor's forwarding retries: every repetition of a delivery is covered by the replay and redelivery theorems.
- Command and acknowledgement messages, the other packet payload formats, and the legacy services: not part of this path.
- QueueAdapter.TelemetryQueue.Claim: the move to processing and the quarantine of a malformed entry are one step of the state machine; a crash between them leaves the entry in processing, from where the next recovery returns it.
- PayloadWorker.WorkerProcess.RunOnce: takes one turn without faults and with no other process between its steps; in the state machine both occur.
- PayloadWorker.WorkerProcess.Run: runs for a given number of turns instead of forever.
- GatewayRecovery.SecondRecoveryIsIdle: speaks of a second recovery at the same time, because a retry that falls due later is new work.
- GatewayPromises.AcknowledgedIsOnRecord: speaks of a request that nothing interrupts; HandlerRuns.InterleavedAnswerIsTruthful covers the others.
- EndToEnd.FrameReachesResult: speaks of a request and turns that nothing interrupts; with interruptions, PipelineProgress.EveryJobCanFinish and PipelineResults.ResultsAreDetermined say that the same result can still be reached and that no other one can.
- JobLifecycle.TakeoversExceedAnyLimit: speaks of one row; PipelineWitnesses.TakeoversExceedAnyLimitInRuns gives the run.
- PipelineStranded.StrandedForever: leaves out a request that had read the job before the loss and queues it afterwards; such a request can put the job back in reach of workers.
- PipelineProgress.EveryJobCanFinish: says that a way to the end exists from everywhere, not that a scheduler takes it.
- PipelineSafety.RunKeeps: assumes that Redis keeps its data during the run.
- VendorSimulator.PayloadSimulator.MakeFrame: takes the sample and its time as parameters, and a write that fails changes nothing.
