# BleRiot: a verified model of its transaction engine and its hub

BleRiot runs request/response transactions between a hub and small nodes over a lossy,
half-duplex radio. A packet carries no transaction token, so the hub has to keep
transactions apart by other means. This project models the parts of the system whose
correctness is about whole runs and proves what they promise. Each concurrent part is a
state machine whose steps are the lock sections, channel operations, atomic counters and
device calls of the Go code, in any order the states allow; the classes beside the state
machines have the shape of the Go code, let the other goroutines take arbitrary steps
between two of their actions, and are proved to reach only states that runs reach.

| module | what it models |
|---|---|
| `Xtea`, `Protocol`, `Golden`, `Turnaround` | the cipher, the packet codec, the repository's golden packets, and the reply turnaround from `ReplyGuard` to the node's sleep |
| `Channel` | one RF channel: the transact goroutines, the gate, radios, requests and replies |
| `Ownership` | one transaction lane per channel, whatever the link does |
| `Isolation`, `LinkConditions` | no reply completes a call it does not belong to, and which conditions on the link this needs |
| `Answers` | over any link: what completes a call, what its outcome says, how long it waits, and why it fails |
| `Registers` | the lane with its nodes and their devices: what a GET returns, and what it returns after an acknowledged SET |
| `Accounting`, `Books` | the engine's counters: what each step counts, and what they add up to |
| `Increments`, `Metering`, `Snapshots`, `Exchanges` | the packet counters one atomic Add at a time, a node's atomics in place, and what a snapshot shows that loads them one after another while calls go on |
| `Engine` | `transact`, `waitForReply`, `drain` and `inspectPacket` in the shape of the code |
| `Inspection` | which packets `inspectPacket` counts as valid, byte by byte |
| `Firmware`, `Polling` | a node's `Poll`, byte by byte, and that it takes the steps of the node on the lane |
| `Pollers`, `Bridge`, `Rounds`, `Fairness` | the channel schedulers of the bridge, their races, and their rounds |
| `Mailbox`, `Liveness`, `Provider` | the latest-value mailbox of a register, the liveness and the deliveries of a polled node, and schedulers, node and mailbox together: what a provider observes |
| `Reconnect`, `Dongle`, `Causes` | the reconnecting dongle and its supervisor, and what its counters count |
| `Assigner` | the assignment of dongles to channels |
| `Publisher`, `Catalog` | the incremental diagnostics publisher and its catalog of paths |
| `Inventory`, `Descriptors` | the validation of a deployment and the descriptors built from it |
| `Modulo`, `Names`, `Options`, `Sets` | remainders, lists of names, optional values, sizes of sets |

## What the theorems assume

- **The link.** Isolation assumes that a reply reaches the radio that sent its request
  (`Locality`), within the drain interval of that request (`Timeliness`), and that a
  drain takes the packets that are already there before it obeys its expired timer
  (`DrainFirst`; Go's select picks either case when both are ready). They are hypotheses
  of the theorems and not part of the state machine, and `LinkConditions` shows for each
  of them that isolation fails without it. `Turnaround.PromptReplyIsTimely` shows which
  delays meet the second.
- **Sends.** A `Send` that returns an error has put nothing on air.
- **Radios.** A radio keeps its reply guard. It may be closed, and replaced at any time.
- **Nodes.** All nodes are added before the first call, each once, because a repeated
  `AddNode` replaces the node's counters. A request is handled at most once and answered
  at most once; a node takes no packet but requests and answers only them.
- **Registers.** Requests reach a node in the order they were sent, some of them never.
  A device is a map from tags to values, as the repository's functional test has it; it
  may also change by itself, except where a lemma excludes it (`NoMeddlingSince` the
  first send of the SET in question, `Undisturbed` after its ACK).
- **Devices.** Every device that a dongle's `open` returns is a new one.

Four claims of the repository turned out to need a condition.

- The drain stays within the per-attempt timeout only if the guard is not negative or the
  timeout reaches the 10 ms quarantine, which `AddRadio` does not check
  (`Turnaround.DrainFitsTimeoutIff`, `Turnaround.DrainCanExceedTimeout`).
- `pathComponent` is not injective: two names collide exactly when they are equal once
  every dot before a `u` is read as an underscore (`Catalog.CollisionIff`,
  `Catalog.DotUCollides`), which the check of `Serve` catches.
- lib/site/DIAGNOSTICS.md states `packet.value.null` <= `packet.value.matched` +
  `packet.value.orphan` without its usual "at quiescence" (lines 292-296). `SnapshotNode`
  loads these atomics one after another, matched, orphan, null. What it shows breaks the
  law exactly if more NULL VALUEs are under inspection between the first load and the last
  than other VALUEs had been counted by the first and orphans between the first two
  (`Snapshots.NullLawIff`, `Snapshots.SnapshotNullLawIff`). That can happen after any
  number of other VALUEs, and although each load falls between two packets
  (`Snapshots.LiveSnapshotsBreakTheLaw`); it cannot if no NULL VALUE is under inspection
  meanwhile (`Snapshots.NoNullNoBreach`).
- "Across the process lifetime", `attempt.initial` is said to be at most the sum of all
  outcomes (lines 244-246). At one moment it is more, by one, exactly while the owner of
  the lane has tried and has no outcome yet, if every call with an outcome has tried too
  (`Snapshots.InitialsExceedIff`, `Books.TriedWithinFinished`): the first call breaks the
  law while it waits (`Snapshots.WaitingCallsBreakTheLaw`). For a snapshot, which loads the
  outcomes first, `Snapshots.InitialLawIff` has the condition.

A quiescent snapshot, for which the document promises its identities (lines 53-56), keeps
all of them (`Books.AtRest`, `Snapshots.QuietReaderSeesBalance`, `Metering.QuietSnapshot`).

Where comments and code disagree the model follows the code. `inspectPacket` is said to
authenticate a packet. It tests the source, the length and the version, and then that the
decrypted type is VALUE or ACK (`Inspection.ValidByTypeIff`); under any other key exactly
one message passes for each VALUE and ACK of the node (`Inspection.OnePassesForEachReply`).
`Decode` by itself looks at length and version only (`Protocol.KeysRejectNothing`). And
`connected` of a reconnecting dongle is said to mirror its live device, which two
goroutines storing it outside the lock do not guarantee, so nothing is claimed about it.

## Model

| member | source | states |
|---|---|---|
| Xtea.DecryptEncrypt | lib/shared/protocol/protocol.go:134-150 | for every key and block, decrypting what was encrypted gives the block back |
| Xtea.EncryptDecrypt | lib/shared/protocol/protocol.go:134-150 | for every key and block, encrypting what was decrypted gives the block back |
| Xtea.SumAfterAllRounds | lib/shared/protocol/protocol.go:132-149 | the running sum after 32 rounds of encryption is the constant from which decryption starts |
| Xtea.SumUnwinds | lib/shared/protocol/protocol.go:143-149 | decryption meets the sums of encryption in reverse and ends at zero |
| Xtea.XteaEncrypt | lib/shared/protocol/protocol.go:134-141 | the loop over pointers computes the 32 rounds of the cipher |
| Xtea.XteaDecrypt | lib/shared/protocol/protocol.go:143-150 | the loop over pointers computes the 32 inverse rounds |
| Protocol.FlagsCarryGuardAndNull | lib/shared/protocol/protocol.go:42-59 | GUARD survives packing up to the clamp, NULL is untouched, and an echoed reply carries both |
| Protocol.HeadIsBijective | lib/shared/protocol/protocol.go:94-127 | TYPE, FLAGS and REG and the first word of the block determine each other |
| Protocol.DecodeEncode | lib/shared/protocol/protocol.go:90-130 | decoding an encoded packet returns every field, negative values included, whatever follows it in the buffer |
| Protocol.EncodeDecode | lib/shared/protocol/protocol.go:90-130 | encoding a decoded 13-byte packet reproduces its bytes |
| Protocol.KeysRejectNothing | lib/shared/protocol/protocol.go:107-130 | what one key accepts every key accepts, and the packet of a message under one key is the packet of some message from the same source under any other |
| Inspection.ValidByTypeIff | lib/site/engine/engine.go:325-352 | a packet counts as valid exactly if its source is known, its version 1, and its decrypted type VALUE or ACK |
| Inspection.ValidIff | lib/site/engine/engine.go:325-352 | it counts as valid with some content exactly if it is the packet that the node's key makes of that VALUE or ACK |
| Inspection.OnePassesForEachReply | lib/site/engine/engine.go:325-352 | under any other key exactly one message passes for each VALUE or ACK of a node |
| Inspection.OwnPackets | lib/site/engine/engine.go:345-348 | of a node's own packets exactly the VALUEs and ACKs are valid |
| Golden.GoldenKey | lib/shared/protocol/protocol_test.go:8-11 | the sixteen bytes of the test key make these four little-endian words |
| Golden.GoldenGet | lib/shared/protocol/protocol_test.go:33-42 | from those key bytes to the thirteen bytes of the golden GET packet |
| Golden.GoldenValue | lib/shared/protocol/protocol_test.go:33-43 | the same of the golden VALUE packet, with NULL flag, type 1 and a negative value |
| Golden.GoldenSet | lib/shared/protocol/protocol_test.go:33-44 | the same of the golden SET packet |
| Golden.GoldenAck | lib/shared/protocol/protocol_test.go:33-45 | the same of the golden ACK packet |
| Golden.GoldenFlags | lib/shared/protocol/protocol_test.go:115-146 | the flag bytes of the repository's tests |
| Protocol.WordCounts | lib/shared/protocol/protocol.go:77-78 | a word is its first byte plus 256 times the second plus 65536 times the third plus 16777216 times the fourth |
| Protocol.KeyWords | lib/shared/protocol/protocol.go:74-81 | each word of a key from its own four bytes, in that sense |
| Protocol.KeyLosesNothing | lib/shared/protocol/protocol.go:74-81 | different 16-byte keys give different codecs |
| Protocol.Codec.constructor | lib/shared/protocol/protocol.go:74-81 | the loop fills the key words from the sixteen bytes, each from its own four, the first counting least |
| Protocol.Codec.Encode | lib/shared/protocol/protocol.go:90-105 | writes the packet over the first 13 bytes and leaves the rest of the buffer alone |
| Protocol.Codec.Decode | lib/shared/protocol/protocol.go:109-130 | returns the parsed message, or the error for its length or version |
| Turnaround.GuardByteTruncatesAndClamps | lib/site/engine/engine.go:376-385 | the guard byte is the guard in whole milliseconds, rounded down, 0 for a negative guard and 127 from 128 ms on |
| Turnaround.TurnaroundChain | lib/site/engine/engine.go:217-219 | from an accepted guard through flags, cipher and wire: the node's sleep and the headroom fit the drain interval, which fits the timeout; NULL arrives, and the reply echoes GUARD |
| Turnaround.WaitFitsDrain | lib/site/engine/engine.go:302-306 | the node's sleep plus the reply headroom never exceeds the hub's drain interval |
| Turnaround.DrainFitsTimeoutIff | lib/site/engine/engine.go:128-132 | for an accepted radio the drain fits the timeout exactly when the guard is not negative or the timeout reaches the quarantine |
| Turnaround.DrainCanExceedTimeout | lib/site/engine/engine.go:128-132 | an accepted negative guard whose drain exceeds the timeout |
| Turnaround.PromptReplyIsTimely | lib/site/engine/engine.go:297-306 | a reply that takes less than the headroom, apart from the node's sleep, is within the drain interval |
| Ownership.Preserved | lib/site/engine/engine.go:57-83 | every step of every goroutine keeps the lane: one token or one owner, one radio per call, consecutive equal sends |
| Ownership.Reachable | lib/site/engine/engine.go:176-275 | the lane invariant holds in every reachable state |
| Ownership.TokensPlusOwners | lib/site/engine/engine.go:57-83 | gate tokens plus owners is one, under every interleaving with AddRadio |
| Ownership.WithoutRadioNobodyOwns | lib/site/engine/engine.go:128-142 | before the first AddRadio there is neither a token nor an owner |
| Ownership.SendsOfOneCall | lib/site/engine/engine.go:213-275 | a call sends at most retries + 1 times, always the same request through the same radio, and nobody sends in between |
| Ownership.OwnStepsRunOut | lib/site/engine/engine.go:196-275 | every step of its own brings a call nearer to its return |
| Ownership.ReadingOnlyHelps | lib/site/engine/engine.go:277-319 | reading a packet never moves a call back, and takes one packet from the buffer |
| Ownership.OwnerIsNeverStuck | lib/site/engine/engine.go:277-319 | once its timer is due an owner has a step of its own, whatever the radio does |
| Isolation.Preserved | lib/site/engine/engine.go:196-320 | over a prompt link every step keeps replies apart: none is on its way or buffered for a call that has returned the token |
| Isolation.HeardIsOwn | lib/site/engine/engine.go:277-295 | whatever a waiting call takes from its radio answers one of its own requests |
| Isolation.OnlyOwnRepliesComplete | lib/site/engine/engine.go:196-320 | a reply that completes a call answers a request of that call |
| Isolation.SuccessIsOwn | lib/site/engine/engine.go:196-320 | every success, by any exit, carries the content of a reply to one of the call's own requests |
| Isolation.ReturnedGateIsQuiet | lib/site/engine/engine.go:297-320 | once the token is back, no reply to an earlier request is heard in any continuation |
| Answers.CompletesIff | lib/site/engine/engine.go:277-293 | a packet ends a wait exactly if it is a reply from the node, for the register and of the type the call waits for; the call then has its content, and otherwise waits on |
| Answers.SuccessAnswersTheCall | lib/site/engine/engine.go:325-374 | over any link, whatever completes a call is the reply to a request for the same register of the same node and of the same kind |
| Answers.OutcomeTellsTheSends | lib/site/engine/engine.go:253-263 | a success is success_first exactly if its call has sent one request |
| Answers.WaitsItsTimeout | lib/site/engine/engine.go:277-286 | a call waits until the configured timeout after its latest send |
| Answers.GivesUpInTime | lib/site/engine/engine.go:277-290 | an attempt is given up only once that timeout has passed, or when its radio is closed and has nothing left to read |
| Answers.DrainsItsInterval | lib/site/engine/engine.go:302-307 | a drain lasts for the guard of the call's radio and 10 ms, and for 10 ms at least |
| Answers.DrainsToItsEnd | lib/site/engine/engine.go:308-319 | and ends only then, or when its radio is closed and empty |
| Answers.TimedFromEntry | lib/site/engine/engine.go:176-177 | a call is timed from its entry into transact, so its latency includes the queue |
| Answers.FailureHasItsCause | lib/site/engine/engine.go:176-275 | every failure has its cause: an unknown node, no radio when the call came, a context that is done, a Send that returned an error, or all retries + 1 requests sent in vain |
| LinkConditions.EachConditionIsNeeded | lib/site/engine/engine.go:297-320 | for each of the three conditions a run that breaks only it and completes a call with a foreign reply |
| Registers.GetReturnsAHeldValue | lib/node/node.go:122-128 | every successful GET returns what its register held after the call had sent and before it had a result |
| Registers.DevicesHoldTheirHistory | lib/site/functest/dongles_test.go:137-175 | a device reads as its last change |
| Registers.AckMakesStable | lib/node/node.go:128-134 | when an ACK completes a SET the register holds the value for good, although ACK precedes the write |
| Registers.StableKept | lib/node/node.go:112-138 | late copies of acknowledged requests do not change the register |
| Registers.ReadAfterAcknowledgedSet | lib/site/engine/engine.go:158-174 | a GET begun after an acknowledged SET, with no other SET of the register sent in between and no change the device makes by itself from the SET's first send on, returns exactly the value that was set, or NULL if it was cleared |
| Accounting.NotedIsRecorded | lib/site/engine/engine.go:189-275 | a step records an outcome for at most one call, which had none, and changes no other |
| Accounting.TallyStep | lib/site/engine/metrics.go:167-169 | the number of calls with an outcome grows with exactly the recorded ones |
| Books.BooksAlwaysBalance | lib/site/engine/engine.go:176-374 | between any two steps of a run: outcome counters count calls, attempts count sends and failed sends, initial attempts count the calls that have tried, latencies count successes, packets add up, buckets are cumulative, retries stay within timeouts and configuration |
| Books.SendsAreCounted | lib/site/engine/engine.go:230-247 | the successful sends of a node are the requests that went to it, its failed sends the calls that ended in a send error, and its attempts, by operation, both together |
| Books.ReadsAreCounted | lib/site/engine/engine.go:325-374 | each packet counter of a known node is the number of packets of its kind that calls have read from it: all, valid, undecodable, of another type, matched and orphaned VALUEs and ACKs, NULL VALUEs |
| Books.ExpiriesAreCounted | lib/site/engine/engine.go:265 | every expired wait of a known node's calls is counted once |
| Books.TriedWithinFinished | lib/site/DIAGNOSTICS.md:244-248 | calls with an initial attempt exceed those with an outcome by at most the one that still owns the lane |
| Books.AtRest | lib/site/DIAGNOSTICS.md:234-305 | at rest each call of a known node that has ended has added exactly one outcome, and the published identities hold |
| Books.LatenciesAreCounted | lib/site/engine/metrics.go:171-187 | each latency bucket of a known node is the number of its successful calls within that bound, the last one of all of them |
| Books.BucketsStayCumulative | lib/site/engine/metrics.go:181-186 | a latency keeps the buckets nondecreasing and adds one to the last |
| Increments.TrailMakesTheCounters | lib/site/engine/engine.go:338-372 | after every run each packet counter is the number of its Adds in the trail: those of all packets inspected, one by one, in the order of the code |
| Increments.CounterAt | lib/site/engine/engine.go:338-372 | at any moment between two Adds a counter shows the packets inspected by then, and one more if the packet under inspection has got as far as this counter |
| Increments.PartsAddUp | lib/site/engine/engine.go:338-372 | packets are valid or invalid, valid ones matched or orphaned VALUEs or ACKs, and VALUEs plain or NULL |
| Snapshots.AtOneMoment | lib/site/engine/engine.go:338-372 | at one moment each whole is at most one ahead of its parts, and NULL VALUEs outnumber VALUEs exactly after the third Add for a NULL VALUE that follows only NULL VALUEs |
| Snapshots.NullLawIff | lib/site/engine/metrics.go:224-228 | with matched, orphan and null loaded at three moments in this order: null exceeds the sum exactly if the NULL VALUEs between the first and the last outnumber the plain VALUEs before the first and the orphans between the first two |
| Snapshots.SnapshotNullLawIff | lib/site/DIAGNOSTICS.md:292-296 | the same of any snapshot of the packet counters |
| Snapshots.NoNullNoBreach | lib/site/DIAGNOSTICS.md:292-296 | the law holds of a snapshot during which no NULL VALUE is under inspection |
| Snapshots.LiveSnapshotsBreakTheLaw | lib/site/DIAGNOSTICS.md:292-296 | after any number of plain VALUEs, a run whose snapshot shows more NULL VALUEs than VALUEs though every load falls between two packets |
| Snapshots.WholesAreAheadByOne | lib/site/engine/metrics.go:224-230 | in any snapshot the received packets exceed the valid and invalid ones by at most one, and the valid ones the matched and orphaned by at most one |
| Snapshots.PartsRunAhead | lib/site/engine/metrics.go:224-230 | for every n, a run whose snapshot shows n more valid packets than received ones |
| Snapshots.QuietReaderSeesBalance | lib/site/DIAGNOSTICS.md:53-56 | a snapshot that meets no packet shows all identities between the packet counters |
| Snapshots.SnapshotIsSeen | lib/site/engine/metrics.go:224-234 | what `Metering.NodeMetrics.Snapshot` loads are the counters at moments that follow one another |
| Snapshots.InitialsExceedIff | lib/site/DIAGNOSTICS.md:244-246 | at one moment initial attempts outnumber outcomes exactly while the lane's owner has tried without an outcome and every call with an outcome has tried |
| Snapshots.InitialLawIff | lib/site/engine/metrics.go:206-212 | with the outcomes and then the initial attempts loaded one after another: initial attempts outnumber outcomes exactly if more calls have tried by the last load without having shown an outcome than have shown one without trying |
| Snapshots.WaitingCallsBreakTheLaw | lib/site/DIAGNOSTICS.md:244-246 | after any number of answered GETs, the next one breaks the law while it waits |
| Metering.TransactionMetrics.RecordOutcome | lib/site/engine/metrics.go:167-169 | the array increment adds one to the named outcome and nothing else |
| Metering.AddMoves | lib/site/engine/metrics.go:84-123 | an Add increments its own atomic and no other |
| Metering.NodeMetrics.RecordSuccessLatency | lib/site/engine/metrics.go:171-187 | the loop over the bounds counts a latency in every bucket that holds it, and in both counts |
| Metering.NodeMetrics.Snapshot | lib/site/engine/metrics.go:197-235 | loads every atomic in the order of the code while others go on adding between any two loads: each counter shows exactly the Adds made to it by the moment of its own load |
| Metering.QuietSnapshot | lib/site/DIAGNOSTICS.md:53-56 | a snapshot during which nobody adds anything equals the counters |
| Engine.Engine.AddRadio | lib/site/engine/engine.go:128-142 | refuses exactly a guard that leaves no headroom; otherwise the radio is the channel's from then on, and the token and the calls stay as they are |
| Engine.Engine.Enter | lib/site/engine/engine.go:176-195 | refuses an unknown node, a missing channel and a done context, in that order, with one outcome each but for the first, and otherwise queues |
| Engine.Engine.WaitForGate | lib/site/engine/engine.go:196-202 | takes the token or gives up on a done context; keeps waiting only while neither is there |
| Engine.Engine.Prepare | lib/site/engine/engine.go:203-212 | gives the token back on a done context, and otherwise fixes the radio of the whole call |
| Engine.Engine.CheckContext | lib/site/engine/engine.go:222-229 | a done context ends the loop, with a drain exactly if something was sent |
| Engine.Engine.SendRequest | lib/site/engine/engine.go:230-247 | counts the attempt and its ending, and waits, drains or returns as the send and its history say |
| Engine.Engine.TakePacket | lib/site/engine/engine.go:253-264 | a matching packet records the outcome and the latency, and drains exactly after a retry |
| Engine.Engine.GiveUpAttempt | lib/site/engine/engine.go:265-268 | an expired wait counts a timeout, and leads to the next attempt or to the last drain |
| Engine.Engine.FinishDrain | lib/site/engine/engine.go:248-274 | the end of a drain records an outcome that is still open, and gives the token back |
| Engine.Engine.InspectPacket | lib/site/engine/engine.go:325-374 | counts a packet of a known source and matches it exactly if its source, register and type are those the owner waits for |
| Engine.Engine.SelectReply | lib/site/engine/engine.go:280-294 | one pass through the select: takes a ready case, or none is ready |
| Engine.Engine.WaitForReply | lib/site/engine/engine.go:277-295 | ends in a match, an expired or closed wait, or a done context, and leaves the call where transact goes on; keeps waiting only while no case is ready |
| Engine.Engine.Drain | lib/site/engine/engine.go:302-320 | reads until its timer is due or the radio is closed, and then the call has the result that was decided before, or its timeout or cancellation |
| Engine.Engine.Retry | lib/site/engine/engine.go:221-275 | the retry loop returns what the call's last step decided, on all its exits |
| Engine.Engine.Transact | lib/site/engine/engine.go:176-275 | a call sends at most retries + 1 times; every error has its cause; an answer is the content of a reply for the same register of the same node, and over a prompt link to one of the call's own sends |
| Engine.Engine.Snapshot | lib/site/engine/metrics.go:197-203 | the counters of a known node, and zeros for an unknown one |
| Engine.CallsAreKnown | lib/site/engine/engine.go:178-185 | every call that was not refused is for a node that has counters |
| Engine.ReachableBuffers | lib/site/engine/engine.go:277-319 | whatever the link does, a buffered reply has been heard |
| Firmware.Node.Poll | lib/node/node.go:112-138 | handles exactly 13-byte packets of the right version, takes one packet at most, and does for a GET or SET exactly this: the sleep the request asks for, one reply to its sender, and the write |
| Firmware.Node.Send | lib/node/node.go:200-203 | encodes into the one buffer and transmits it |
| Firmware.Node.ReplyValue | lib/node/node.go:189-196 | answers a GET with the request's guard, the device's NULL, and no value under NULL |
| Firmware.Node.HandleSet | lib/node/node.go:128-134 | sleeps, acknowledges, and only then writes |
| Firmware.OneReplyPerRequest | lib/node/node.go:121-138 | one transmission for a GET or SET, before any write, and none for other packets |
| Firmware.HubReadsTheDevice | lib/node/node.go:122-127 | the hub decodes from the reply to its GET the device's reading of that register, its NULL and the echoed guard |
| Firmware.SetArrives | lib/node/node.go:128-134 | a SET leaves its value or NULL in the device, a repetition changes nothing, and its ACK names the register and echoes guard and NULL |
| Firmware.SleepsAsAsked | lib/node/node.go:181-185 | the time Poll sleeps before it sends is the guard in the request's flags |
| Firmware.PollFitsDrain | lib/node/node.go:112-138 | for a request of the hub that time is the radio's guard, rounded down to milliseconds below 128 ms, and with the headroom fits the hub's drain, which fits its timeout |
| Polling.PollTakesItsSteps | lib/node/node.go:112-138 | for a GET or SET on its way to an idle node, receive, reply and (for a SET) write are possible on the lane in the order of Poll, with the answer Poll gives, and leave the node showing the device as Poll leaves it |
| Polling.PollSendsTheAnswer | lib/node/node.go:112-138 | the one packet Poll sends decodes at the hub to the answer of the node's step, under the register and type of the call, and the write follows it |
| Polling.Writes | lib/node/node.go:133 | whatever the device is by then, the node's write step on the lane is the device's write of the request |
| Polling.SignedIs | lib/shared/protocol/protocol_test.go:43 | a value is read as a two's complement int32 |
| Rounds.FilterCounts | lib/site/bridge/bridge.go:213-219 | filtering keeps every live job as often as it was there, and no other |
| Rounds.FilterKeepsOrder | lib/site/bridge/bridge.go:213-219 | and keeps them in their order |
| Rounds.ChannelPoller.Compact | lib/site/bridge/bridge.go:213-219 | the compaction over the list it reads leaves the live jobs in their order |
| Rounds.ChannelPoller.Add | lib/site/bridge/bridge.go:154-157 | appends, in place or into a larger array |
| Rounds.ChannelPoller.Round | lib/site/bridge/bridge.go:210-227 | the snapshot is a copy of the compacted list, and the first node rotates |
| Rounds.ChannelPoller.Walk | lib/site/bridge/bridge.go:186-191 | the index walk visits, at each offset, the node so far from the start around the snapshot |
| Rounds.WalkVisitsAll | lib/site/bridge/bridge.go:186-191 | a walk visits every node of its snapshot exactly as often as it is there |
| Fairness.EachNodeLeadsOnce | lib/site/bridge/bridge.go:208-227 | in every run, any as many consecutive rounds of a poller over the same nodes as there are nodes start at each node exactly once |
| Pollers.Preserved | lib/site/bridge/bridge.go:118-239 | every step of ServeNode, cancellation, rounds and retirement keeps the registry invariant |
| Pollers.OnePollerPerChannel | lib/site/bridge/bridge.go:126-142 | never two running pollers on a channel, and the one there is is registered |
| Pollers.LiveJobIsScheduled | lib/site/bridge/bridge.go:118-160 | a live job is in the list of the running poller mapped at its channel, once, and in no other list |
| Pollers.RetiredHasNoJobs | lib/site/bridge/bridge.go:229-239 | a retired poller has no jobs |
| Pollers.NoLostWakeup | lib/site/bridge/bridge.go:162-174 | a poller does not sleep through a job or a cancellation it has not seen unless somebody has yet to signal |
| Pollers.RoundTakesAllLiveJobs | lib/site/bridge/bridge.go:210-227 | a round takes exactly the live jobs added to its poller |
| Pollers.RetiresWhenEmpty | lib/site/bridge/bridge.go:229-239 | retirement succeeds exactly when the list is empty at that moment |
| Pollers.AdderBlocksRetirement | lib/site/bridge/bridge.go:126-142 | no poller can retire while a job is between its append and its signal |
| Pollers.OneSweeper | lib/site/bridge/bridge.go:176-206 | at any two moments of a run, whoever has a job in its snapshot is the poller that serves it |
| Bridge.Bridge.ServeNode | lib/site/bridge/bridge.go:118-142 | when it returns, a live job is in the list of the running poller of its channel |
| Bridge.Bridge.AddJob | lib/site/bridge/bridge.go:154-160 | appends, watches and signals with bridge.mu held, and releases it |
| Bridge.Bridge.TakeSnapshot | lib/site/bridge/bridge.go:210-227 | the lock section of a round: an empty snapshot leads to retirement, any other to a sweep |
| Bridge.Bridge.RunPoller | lib/site/bridge/bridge.go:176-206 | the poller's loop returns only when it has retired, with no job left behind; until then it stops only to wait for the lock, or for its token and timer |
| Bridge.Bridge.TryToRetire | lib/site/bridge/bridge.go:229-239 | removes the registration exactly if it is this poller's and the list is empty |
| Mailbox.DeliverLatestNeverBlocks | lib/site/bridge/bridge.go:351-365 | a delivery makes at most three moves, each possible at once |
| Mailbox.ReceivedInOrder | lib/site/bridge/bridge.go:309-319 | the provider observes a subsequence of the deliveries, in order |
| Mailbox.NewestIsNeverLost | lib/site/bridge/bridge.go:351-365 | with one producer the newest delivery is in the slot or was received last |
| Mailbox.TwoProducersLoseTheNewest | lib/site/bridge/bridge.go:351-365 | with two producers the newest delivery can be lost while an older one stays |
| Mailbox.OneSlot.TrySend | lib/site/bridge/bridge.go:352-356 | the non-blocking send fills the slot exactly if it is free |
| Mailbox.OneSlot.MakeRoom | lib/site/bridge/bridge.go:357-360 | the non-blocking receive leaves the slot free |
| Mailbox.OneSlot.DeliverLatest | lib/site/bridge/bridge.go:351-365 | leaves its value in the slot, or it has just been received, however the receiver interleaves |
| Liveness.FailuresAreSilentSweeps | lib/site/bridge/bridge.go:265-295 | failures is the number of completed sweeps that saw no success and after which there has been none; offline holds exactly from the threshold on |
| Liveness.DeliveriesAreTheHistory | lib/site/bridge/bridge.go:241-295 | a register has been given exactly its history, the value of each GET and nil each time the node went offline, but for a delivery on its way |
| Liveness.OneNilForEachEpisode | lib/site/bridge/bridge.go:279-295 | each register gets nil exactly once for each offline episode, beside one value for each of its GETs |
| Liveness.NewestDeliveryIsLatest | lib/site/bridge/bridge.go:241-295 | the newest delivery to a register is the value of its latest GET if that could be decoded, and nil if it was NULL or undecodable or the node has gone offline since |
| Provider.OneProducer | lib/site/bridge/bridge.go:186-206 | only the job's own poller ever delivers to a register's channel, in every run of schedulers, node and mailbox together |
| Provider.ProviderObservesTheHistory | lib/site/bridge/bridge.go:309-319 | what the provider receives is a subsequence of the register's history, in order and nothing twice |
| Provider.ProviderGetsTheLatest | lib/site/bridge/bridge.go:351-365 | once nothing is on its way, the provider has received last, or finds waiting, the value of the latest GET if that could be decoded, and nil if it was NULL or undecodable or the node has gone offline since |
| Liveness.PolledNode.Sweep | lib/site/bridge/bridge.go:241-263 | one sweep gives each register whose GET succeeds its value, or nil for NULL and for a decode error, and the others nil exactly if the node goes offline with it; failures, offline and all deliveries are those of the history |
| Liveness.PolledNode.NoteSuccess | lib/site/bridge/bridge.go:265-271 | a success, of a GET or of a SET, clears failures and offline |
| Liveness.PolledNode.NoteFailedSweep | lib/site/bridge/bridge.go:279-295 | a sweep without success adds a failure; the one that reaches the threshold takes the node offline and gives every register nil once; any other changes no delivery |
| Reconnect.Preserved | lib/site/radio/reconnect.go:170-335 | every step of Send, Receive, Close, drop and supervise keeps ownership, wake-ups and counters |
| Reconnect.NeverClosedTwice | lib/site/radio/reconnect.go:219-264 | no device is closed twice |
| Reconnect.ClosedExactlyOnce | lib/site/radio/reconnect.go:219-335 | with no call in progress a device is open exactly when the endpoint or its supervisor has it, and closed once otherwise |
| Reconnect.NothingLeaksAfterClose | lib/site/radio/reconnect.go:217-232 | when Close and the supervisor have finished every device has been closed exactly once |
| Reconnect.ClosedStaysOffline | lib/site/radio/reconnect.go:319-326 | after Close there is never a live device again |
| Reconnect.NoLostNudge | lib/site/radio/reconnect.go:266-295 | a supervisor that waits as healthy with no device has a token waiting or a nudge coming |
| Reconnect.CloseReachesTheSupervisor | lib/site/radio/reconnect.go:219-295 | after Close a healthy supervisor is woken and leaves |
| Reconnect.OpensAddUp | lib/site/radio/reconnect.go:219-335 | at rest successes = disconnects + live + taken by Close, disconnects = send-caused + receive-caused, and attempts = successes + failures + rejected + in progress |
| Reconnect.RejectionsNeedClose | lib/site/radio/reconnect.go:319-324 | only a closed endpoint rejects a device |
| Reconnect.SendsAddUp | lib/site/radio/reconnect.go:170-187 | at rest every Send was a success or an error |
| Reconnect.StatsNeverUnderflow | lib/site/radio/reconnect.go:103-132 | the lock-free difference in Stats is never negative |
| Causes.CountersCount | lib/site/radio/reconnect.go:170-217 | each counter is the number of times its event has happened: sends begun, made, failed and offline, packets and errors read, opens tried, failed and installed, disconnects |
| Causes.DisconnectsHaveTheirCause | lib/site/radio/reconnect.go:243-266 | a dropped device is put down to a failed Send or Receive of that device by the goroutine that dropped it |
| Causes.CountersAreDevices | lib/site/DIAGNOSTICS.md:343-351 | at rest successes, disconnects by cause and attempts are numbers of devices: dropped after a failed Send, after a failed Receive, taken by Close, live, or opened into a closed endpoint |
| Dongle.Reconnecting.Send | lib/site/radio/reconnect.go:170-187 | counts itself as one send that succeeded, failed or found the dongle offline, and a device that failed is not live any more |
| Dongle.Reconnecting.Receive | lib/site/radio/reconnect.go:191-215 | yields what the device it picked yields, nothing while offline, and a device that failed is not live any more |
| Dongle.Reconnecting.Close | lib/site/radio/reconnect.go:219-232 | leaves the endpoint closed and offline, and the device it had closed once |
| Dongle.GoneForGood | lib/site/radio/reconnect.go:243-264 | a device that has been detached never becomes live again |
| Dongle.ExitHasAReason | lib/site/radio/reconnect.go:277-335 | the supervisor leaves only after Close or when its context is done |
| Dongle.Reconnecting.DetachDevice | lib/site/radio/reconnect.go:243-250 | detaches the failed device exactly if it is still the live one |
| Dongle.Reconnecting.Drop | lib/site/radio/reconnect.go:243-264 | afterwards the device is not the live one, whoever detached it |
| Dongle.Reconnecting.InstallDevice | lib/site/radio/reconnect.go:319-326 | installs an opened device exactly if the endpoint is not closed |
| Dongle.Reconnecting.Supervise | lib/site/radio/reconnect.go:277-335 | the supervisor's loop ends only when the endpoint is closed or its context is done; until then it stops only to wait |
| Assigner.ClaimedIsHeld | lib/site/cli/hub.go:207-304 | the claimed keys are exactly those of opens in progress and unreleased dongles, and no two share one |
| Assigner.SecondCloseSparesTheNextHolder | lib/site/cli/hub.go:284-303 | when another holder has a dongle's key, the dongle has been closed before, and closing it again leaves the new claim alone |
| Assigner.DevicesMoveOn | lib/site/cli/hub.go:228-303 | a run in which a closed dongle's key goes to another holder and the dongle is closed again |
| Assigner.CloseFreesItsOwnKey | lib/site/cli/hub.go:284-303 | a first Close frees its own claim and leaves the others |
| Assigner.EachKeyTriedOnce | lib/site/cli/hub.go:228-249 | a call of claim opens each key at most once |
| Assigner.FindFree | lib/site/cli/hub.go:255-275 | finds the first free device: of the first type that has one, with the least selector |
| Assigner.KeysTellDevicesApart | lib/site/cli/hub.go:263-264 | with schemes that have no colon, different devices have different keys |
| Assigner.DongleAssigner.ReserveOne | lib/site/cli/hub.go:255-275 | claims that device and nothing else |
| Assigner.DongleAssigner.OpenReserved | lib/site/cli/hub.go:238-247 | a device that opens keeps its claim; one that does not is given back, and remembered as tried |
| Assigner.DongleAssigner.ClaimOne | lib/site/cli/hub.go:228-249 | with discoverable keys from a finite set the loop ends within one round per key and one more: with a device that opened, or when nothing is free but what has failed before |
| Assigner.DongleAssigner.CloseDongle | lib/site/cli/hub.go:300-303 | gives the claim back once |
| Names.SortedNames | lib/site/bridge/diag.go:319-326 | the names of a snapshot, each once, in order |
| Names.ListIsUnique | lib/site/bridge/diag.go:319-326 | a fixed set of names has one sorted list, so positions are stable |
| Names.BeforeIs | lib/site/bridge/diag.go:319-326 | the order of names: the first difference decides, and a prefix comes before what it begins |
| Publisher.BatchIs | lib/site/bridge/diag.go:135-148 | a batch has exactly the paths that are new, changed, due for refresh or pending, each with its value, and with metadata until it has been sent |
| Publisher.AgreesWithEverything | lib/site/bridge/diag.go:149-168 | a cycle that ends well leaves the Registry as sending the whole snapshot would |
| Publisher.RegistryHoldsTheSnapshot | lib/site/bridge/diag.go:126-168 | in every run, after a successful or empty cycle, the Registry holds the snapshot, whatever parts of failed batches were applied |
| Publisher.MetadataUntilAccepted | lib/site/bridge/diag.go:143-147 | metadata goes with a path up to and including its first accepted batch, and no longer |
| Publisher.FailedIsRetried | lib/site/bridge/diag.go:153-168 | a path of a failed batch is in every later batch up to and including the first accepted one, which settles it |
| Publisher.EveryPathIsRefreshed | lib/site/bridge/diag.go:131-168 | over a fixed catalog any refreshCohortCount consecutive cycles send every path |
| Publisher.RoundFitsHalfTtlIff | lib/site/bridge/diag.go:183-189 | a refresh round fits half the TTL exactly when two intervals fit the TTL |
| Publisher.CountIsLargest | lib/site/bridge/diag.go:183-189 | refreshCohortCount is the largest count whose round fits half the TTL, if there is one |
| Publisher.UnchangedIsSentOnce | lib/site/bridge/diag.go:131-168 | over a fixed catalog, any refreshCohortCount consecutive cycles send a path that is neither new nor changed nor pending exactly once |
| Publisher.SentPlusCoalesced | lib/site/bridge/diag.go:162-167 | sent plus coalesced is the catalog's size times the accepted batches |
| Publisher.BatchesAreCounted | lib/site/bridge/diag.go:149-168 | an empty cycle counts nothing; otherwise the batch counts as accepted or failed, and its values as sent if accepted |
| Publisher.RegistryIsWhatArrived | lib/site/bridge/diag.go:149-168 | the Registry holds of each path what the latest batch that reached it has brought, and its metadata exactly if a batch with it has |
| Publisher.Diagnostics.Collect | lib/site/bridge/diag.go:134-148 | the loop over the names computes the batch |
| Publisher.Diagnostics.Publish | lib/site/bridge/diag.go:130-168 | one cycle keeps the invariant, and leaves the snapshot in the Registry when it ends well |
| Catalog.ComponentsHaveNoDots | lib/site/bridge/diag.go:311-313 | a path component has no dot |
| Catalog.CollisionIff | lib/site/bridge/diag.go:311-313 | two names share a component exactly when they agree once a dot before a u is read as an underscore |
| Catalog.InjectiveWithoutDotU | lib/site/bridge/diag.go:311-313 | on names without a dot before a u the component loses nothing |
| Catalog.DotUCollides | lib/site/bridge/diag.go:311-313 | two different names with the same component |
| Catalog.PathsDifferIff | lib/site/bridge/diag.go:92-119 | all published paths are distinct exactly when no two nodes and no two channels collide |
| Catalog.CheckNames | lib/site/bridge/diag.go:97-116 | the check of Serve passes exactly when all paths will be distinct |
| Catalog.CatalogSize | lib/site/DIAGNOSTICS.md:100-113 | a catalog that has passed the check has 19 + 33N + 18C paths |
| Catalog.CatalogAccounting | lib/site/bridge/diag.go:162-167 | sent plus coalesced is (19 + 33N + 18C) times the accepted batches |
| Catalog.Snapshot | lib/site/bridge/diag.go:223-241 | the snapshot has exactly the paths of the catalog, and if no names collide each field of the hub, of a node and of a channel shows its own value under its own path |
| Catalog.EachPathHasItsOwnValue | lib/site/bridge/diag.go:243-307 | no path of a checked snapshot shows the value of another field, node or channel |
| Catalog.TestedComponents | lib/site/bridge/diag_test.go:162-174 | the path components of the repository's tests |
| Catalog.TestedPacketPaths | lib/site/bridge/diag_test.go:104-119 | the packet paths that the repository's test of the publisher expects |
| Catalog.TestedTransactionPaths | lib/site/bridge/diag_test.go:104-119 | its transaction paths |
| Catalog.TestedOtherPaths | lib/site/bridge/diag_test.go:104-119 | its hub and channel paths |
| Inventory.ValidateType | lib/shared/inventory/inventory.go:174-209 | accepts a device type exactly when its rules hold |
| Inventory.ValidateMapping | lib/shared/inventory/inventory.go:245-256 | accepts exactly mappings of existing tags to non-empty names |
| Inventory.ValidateChannels | lib/shared/inventory/inventory.go:280-304 | accepts exactly channels in range, named, and one-to-one with their numbers |
| Inventory.SpreadFactorByChannel | lib/shared/inventory/inventory.go:322-335 | fails exactly when two nodes of a channel disagree, and otherwise maps each channel to its factor |
| Inventory.ClaimNames | lib/shared/inventory/inventory.go:257-264 | accepts exactly Registry names that nobody has yet |
| Inventory.Validate | lib/shared/inventory/inventory.go:216-273 | returns no error exactly when all declarative rules of the inventory hold |
| Inventory.RulesAre | lib/shared/inventory/inventory.go:174-304 | those rules in full, down to each field and each pair that must differ, Registry names included |
| Descriptors.Descriptor.Index | lib/site/node/descriptor.go:71-104 | succeeds exactly on non-zero distinct IDs, distinct names and fitting conversions; keeps every conversion that was given, fills in the defaults of the type where one was left out, gives a read-only register nothing to encode with, and changes nothing else |
| Descriptors.CompletedConverts | lib/site/node/descriptor.go:85-99 | every completed register decodes, and encodes exactly if it is writable |
| Descriptors.CompletedFillsIn | lib/site/node/descriptor.go:85-99 | a given conversion is kept and one left out becomes the default of its type |
| Descriptors.Descriptor.ById | lib/site/node/descriptor.go:106-110 | agrees with linear search |
| Descriptors.Descriptor.ByName | lib/site/node/descriptor.go:112-116 | agrees with linear search |
| Descriptors.SearchIdIsExact | lib/site/node/descriptor.go:106-110 | linear search finds a register with the ID exactly if there is one |
| Descriptors.BuildNode | lib/site/cli/start.go:77-90 | fails exactly when the table cannot be indexed, and otherwise writes each register's mapped name, or instance and register name, into it |
| Descriptors.BuildValidNode | lib/site/cli/start.go:77-111 | never fails on an instance of a valid inventory; each register of the node is that of the device type, under its mapped or default name, with given and default conversions, and is found by ID and by name |

## Left out

- One channel at a time: a lane is modelled for one RF channel; lanes share only the node table and the counters of different nodes.
- Granularity of counters: a step of the engine makes all its Adds, and the channel operation or Send beside them, at once. Only the packet counters are also taken Add by Add (`Increments`, `Snapshots`), and snapshots load by load; `Reconnect` has a step for each counter of a Send or a disconnect.
- Timestamps (last received, last valid, state since, last open) and the microsecond sums of latencies.
- The width of counters: they are naturals and do not wrap.
- The counter of packets for unknown registers, which is not published.
- Engine.Engine.Transact: returns `Blocked` when the script of the other goroutines ends and no case of the select is ready, where the code would go on waiting.
- Engine.Engine.WaitForReply: one script entry stands for one wake-up of the select; when several cases are ready the entry says which is preferred.
- `radio.Radio` and its receive goroutine between a dongle and the engine; a radio is a queue of packets that may be closed.
- The plaintext source of a packet under a key that is not the node's own: such bytes are `Noise` that decodes to no VALUE or ACK. A forged or accidentally valid packet is not modelled on the lane; `Inspection` says which packets are valid.
- Int32 values are bit patterns in `Protocol` and `Firmware` and integers in `Channel` and `Registers`; `Polling` relates the two.
- PollWithStatus, the online flag and the LED heartbeat; `Firmware.Node` keeps only the deadline.
- `serveRegister` and `applyRequest` beyond the mailbox and the success they note: the Registry client, its requests and the encoding of written values.
- Bridge.Bridge.ServeNode: gives up when the script of the others ends before the lock is free; the code waits.
- Bridge.Bridge.RunPoller: the sweep of one node is a single step; what happens inside is `Liveness`.
- Liveness.PolledNode.Sweep: the time a sweep takes and the sleep after it are left out.
- `connected` of a reconnecting dongle, which is stored outside its mutex by two goroutines.
- Dongle.Reconnecting.Supervise: the backoff has no duration; its timer may fire at any time.
- Physical exclusion while a dongle is closing: the claim goes back before the device is closed.
- The text of log messages and errors.
- Registry expiry: the Registry keeps what it has been given; the refresh bound is stated in cycles.
- Publisher.Diagnostics.Publish: the values of a snapshot are a parameter; the fleet-wide sums of latencies are not modelled.
- Catalog.CheckNames: walks the names in the given order, where the code sorts them first, which changes only which collision is logged.
- Firmware manifests: `firmwareFits` stands for their own validation.
- Conversions are names of functions; their arithmetic on floating-point values is not modelled.
- USB, the radio chips, the command line, the build of firmware and the generation of code.
