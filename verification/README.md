# The trusted side of the agent host, modelled and proved

This project models the host side of an agent web application: the code that runs one long-lived,
untrusted harness process per conversation, reads its JSON lines, folds them into a verdict, fans
them out to browsers, and keeps run rows and uploads consistent. It proves what that code keeps
over every input, every run and every interleaving, and where a promise does not hold it proves
exactly when it does.

`dafny verify dfyconfig.toml` checks everything.

## How the model is organised

| files | what they model |
|---|---|
| `Lines`, `DockerStream`, `DockerStreamTheorems`, `DockerStreamCuts`, `CappedLine` | the byte-stream layer: frame demultiplexer and capped line readers |
| `Json`, `Numbers`, `Strings`, `Protocol`, `OutcomeLaws`, `Pump`, `Worker` | from a harness line to a terminal row: parsing, the outcome fold, transcript retention, the worker |
| `SeqTracker` | per-run sequence accounting |
| `Coalesce`, `CoalesceTheorems`, `Replay` | storing a transcript and resuming from it |
| `FanOut`, `FanOutProtocol` | broadcast, subscribe and close with bounded queues, as objects and as interleaved steps |
| `Registry`, `ExecSteps`, `ExecInvariant`, `ExecProtocol`, `ExecSchedules` | the sandbox registry, the protocol of concurrent execs on one sandbox, and schedules on which it stops short |
| `Lifecycle` | run rows, worker threads, crashes and reconciliation |
| `RateLimit` | the sliding-window limiter and its Redis twin |
| `Quota`, `QuotaProtocol`, `QuotaRace` | streaming an upload, the check-commit-recheck quota protocol, and two uploads racing for the last of a quota |

Code that changes state in place is a class or a method with loops (`DockerStream.DockerStream`,
`CappedLine.TextStream`, `Protocol.RunOutcome`, `Coalesce.MergeEvents`, `Registry.ResidentRunner`,
`FanOut.ActiveRun`, `Lifecycle.RunTable`, both limiters, `Quota.StreamUpload`). Each of its methods
equates the new state with a function of the old one, and the theorems are about those functions.
Concurrent code is a transition system with one step per locked section, queue call, transport
call, transaction or unlocked write; its theorems quantify over all sequences of steps.

Outside the model and therefore parameters or free choices of the environment: `json.loads`,
`str` and `int` on arbitrary values (the `Library` record), the clock, uuids, what `recv` returns
and how it cuts the bytes, whether a call to a sandbox, the object store or the database succeeds,
and when a process dies.

## Where the code differs from what is said about it

Each of these is a lemma; the code was modelled as it is.

- Under a cap that some frame can exceed, the lines read depend on how `recv` cut the bytes; under
  no cap, or one that no frame header can exceed, they never do (`CutsInvisibleIff`).
- A forced offer makes the terminal event land, but broadcasts still in flight can evict it again
  (`TerminalCanBeLostIff`, `CancelRaceLosesTerminal`). A replay through a full queue keeps its last
  event only for one parity of the overshoot (`ReplayDeliversLastIff`), because an unforced
  `_offer` that evicts does not add the new event.
- "Merging is lossless for rendering" fails for a delta whose text is `null`
  (`RenderingPreservedIff`): Python stores `None` where the browser shows nothing.
- "Worker must always finish the run row" fails when a retained line makes the decoder or the fold
  raise (a list as `type`, an integer literal too long for `int`, an infinite token count), when
  the token counts add up to more than a float can hold, which the metrics counter needs, and when
  the thread cannot be started (`FinalizedIff`, `ReturnedRunIsFinalizedIff`,
  `UnhashableTypeStrandsTheRun`, `HugeTokenCountStrandsTheRun`).
- The transcript cap can drop the very line that would have raised, so a run that would be stranded
  is finalized (`OutcomeSurvivesTheCap`, `CapHidesAnException`).
- The pump splits on newlines and the worker on every Unicode line boundary. A result line with
  U+2028 in a string ends the run for the pump and does not exist for the worker
  (`BrokenResultIsLost`); a line with carriage returns between its tokens can make the worker fold
  an object nested in it (`NestedObjectIsFolded`); and a fragment can raise where the whole line
  would not, which strands the run (`FragmentCanRaise`, `BrokenDigitsStrandTheRun`). `ResultSurvivesIff` and
  `OutcomeSurvivesCapAndBreaks` say exactly what is kept.
- With a limit below one the deque limiter raises and the Redis limiter lets everything through
  (`BackendsAgreeIff`).
- `create` registers its transport without looking whether the sandbox survived the spawn
  (`RegistryInvariantIff`, `OrphanStays`), and an exec lock made lazily does not serialize two
  execs that arrive together (`OverlapIff`): a submit can then go out under the handshake of
  another build (`ContractKeptIff`).
- `_tag` promises an `op_id` only to builds that advertise it, but every `hello` carries one; of
  hellos and submits only the hellos do (`UnaskedTagIff`, `HelloTagsUnasked`).
- "The winner keeps its file": two racing uploads can both be rolled back (`BothLoseIff`,
  `BothRacersMayLose`), and a recheck whose query raises keeps its upload unchecked
  (`RecheckFailuresOverrun`).
- "A partial upload must not linger in the agent's cwd": it does when reading the body raises;
  a failed put or commit leaves objects that no row names (`LeftBehindIff`, `AbortLeavesFile`,
  `PartialPutLeavesObject`, `CommitFailureLeavesBoth`). So does a run of the conversation that
  finishes while the upload is in flight: its artifact sweep takes the file for the agent's
  (`SweepLeavesObject`). Deleting a conversation keeps the objects of its uploads
  (`ConversationDeletionKeepsObject`).
- Reading the persisted status before marking a run cancelled keeps most cancels from flipping a
  completed run, but not one whose mark falls behind the terminal transaction's read
  (`CancelStraddlesTheEnd`, `CompletedRunFlipsIff`, `CommittedFlagIff`).
- Reconciliation frees a dead run's conversation only under the same instance id
  (`LostRowIsFreedOnlyBy`); the default id is made per process.

## Model

| member | source | states |
|---|---|---|
| `DockerStream.DockerStream.DemuxChunk` | app/controllers/runner.py:1254-1301 | the loop over one received chunk leaves buffer, skip count, discard flag, oversize count, stderr and output as the recursive `Drain` says, for arbitrary bytes; it terminates by the bytes left |
| `DockerStream.DockerStream.ReadLine` | app/controllers/runner.py:1309-1352 | one `readline` returns the line and leaves the fields that `NextLine` describes; it terminates by unread chunks and pending bytes |
| `DockerStreamTheorems.ReadLinesRefineBatch` | app/controllers/runner.py:1254-1352 | however the bytes of fitting frames are cut, reading returns exactly the stdout lines within the cap in order, the unterminated tail last, then "" forever; longer lines are counted and stderr payloads reach the sink |
| `DockerStreamTheorems.RecvBoundariesInvisible` | app/controllers/runner.py:1254-1352 | two ways of cutting the same bytes cannot be told apart |
| `DockerStreamTheorems.NextLineMeetsProspect` | app/controllers/runner.py:1309-1352 | each single read returns the next line of the batch specification and leaves the rest of it to come |
| `DockerStreamCuts.OversizeFrameIsChunkDependent` | app/controllers/runner.py:1268-1291 | at every cap below the greatest frame size, two cuts of the same bytes that `recv` can make give different lines |
| `DockerStreamCuts.CutsInvisibleIff` | app/controllers/runner.py:1254-1352 | for each configuration, all cuts of all byte strings read alike if and only if there is no cap or no frame header can exceed it |
| `DockerStreamTheorems.TurnBounded` | app/controllers/runner.py:1322-1352 | every turn of the read loop on any bytes keeps the buffer ceilings |
| `DockerStreamTheorems.BuffersStayBounded` | app/controllers/runner.py:1254-1352 | over any number of reads of any bytes `_buf` stays within max_line + 7, `_pending` within 2 * max_line + 4103, and no line exceeds the cap |
| `CappedLine.ReadCappedLine` | app/controllers/protocol.py:516-542 | one call reports the next physical line, cut and flagged exactly if it exceeds the cap or is a tail that fills it, and leaves the stream at the start of the following line |
| `CappedLine.ReadAll` | app/controllers/protocol.py:516-542 | iterating reports every physical line exactly once, in order, and drains the stream |
| `CappedLine.OnlyFittingLinesPass` | app/controllers/protocol.py:516-542 | the unflagged reports are exactly the fitting lines unchanged, and no report is longer than the cap |
| `Lines.PhysicalLosesNothing` | app/controllers/protocol.py:516-542 | the batch notion of physical lines is a partition of the text |
| `Protocol.RunOutcome.ApplyEvent` | app/controllers/protocol.py:317-399 | folding one event in place changes the outcome as `Apply` says, and raises exactly on a non-finite live-usage number |
| `Protocol.UnaffectingIsIdentity` | app/controllers/protocol.py:498-513 | what `affects_outcome` calls irrelevant really leaves every field of every outcome alone |
| `OutcomeLaws.FoldOnlyGrows` | app/controllers/protocol.py:317-399 | from any moment of any stream on, errors, codes and protocol errors only grow, stay duplicate-free, and failure is permanent |
| `OutcomeLaws.ListsStartDuplicateFree` | app/controllers/protocol.py:317-399 | the three lists of a run are duplicate-free |
| `OutcomeLaws.RefusalsDecideNothing` | app/controllers/protocol.py:161-171 | deleting every protocol `error` line changes neither answer, errors, usage, cancellation nor terminal status |
| `OutcomeLaws.PrimaryCodeIsEarliestClassified` | app/controllers/protocol.py:178-190 | the primary code is the earliest classified code of the whole stream whenever there is one |
| `Pump.PumpUntilResult` | app/controllers/runner.py:1113-1160 | the pump delivers the lines up to EOF or the first parsed result, skipping oversize ones, and returns the transcript retained under the budget; a line nested too deeply for the decoder ends it with an exception and no transcript |
| `Pump.OutcomeSurvivesTheCap` | app/controllers/runner.py:1138-1149 | for every stream of unbroken lines and every budget, the worker's fold over the retained stdout equals the fold over all lines read if and only if every line can be digested or one that cannot is retained |
| `Pump.CapHidesAnException` | app/controllers/runner.py:1138-1149 | a dropped line whose type is a list turns the raising fold into a clean one |
| `Pump.BrokenLinesVanish` | app/controllers/manager.py:1070-1076 | for any lines whose fragments are no events, the fold over the split stdout is the fold over the lines without a line boundary inside |
| `Pump.OutcomeSurvivesCapAndBreaks` | app/controllers/manager.py:1070-1076 | cap and splitting together keep the fold over the whole lines if and only if the cap hides no exception among them |
| `Pump.ResultSurvivesIff` | app/controllers/manager.py:1070-1076 | the worker sees a result if and only if some result line holds no line boundary |
| `Pump.RetainedNoiseIsBounded` | app/controllers/runner.py:1138-1149 | the retained lines that cannot affect the outcome weigh less than the budget plus one line |
| `Pump.BrokenResultIsLost` | app/controllers/manager.py:1070-1076 | any result line with U+2028 inside, whatever the decoder, ends the run for the pump and leaves the worker's outcome untouched |
| `Pump.NestedObjectIsFolded` | app/controllers/manager.py:1070-1076 | an object nested between carriage returns is folded as a line of its own |
| `Pump.FragmentCanRaise` | app/controllers/manager.py:1070-1076 | a fragment the decoder raises on makes the fold raise, whatever the whole line decodes to |
| `Strings.SplitJoin` | app/controllers/manager.py:1070-1076 | splitting the joined transcript gives back the lines, when none holds a line boundary |
| `Worker.FinalizedIff` | app/controllers/manager.py:231-265 | an exec that came back hands its terminal row to the database if and only if every retained line can be digested and the last result's token counts are numbers whose sum a float can hold; the other ends always do |
| `Worker.UnhashableTypeStrandsTheRun` | app/controllers/protocol.py:276-285 | one line whose type is a list keeps the row `running` |
| `Worker.HugeTokenCountStrandsTheRun` | app/controllers/manager.py:729-736 | so does a legal result line that reports a count of four hundred nines or more, although it can be digested |
| `Worker.BrokenDigitsStrandTheRun` | app/controllers/manager.py:1070-1076 | and so does a line cut around digits too many for an integer |
| `Worker.TerminalRowIsConsistent` | app/controllers/manager.py:691-747 | the status written agrees with cancellation, the error trail, the result and the overspend verdict beside it |
| `SeqTracker.SeqTracker.Check` | app/controllers/protocol.py:227-241 | one check advances, counts a gap or counts a reordering, and reports the anomaly |
| `SeqTracker.SequenceAccounting` | app/controllers/protocol.py:207-241 | over any stream last is the maximum, last minus gaps the number of advancing lines, advancing plus reordered the numbered lines, and silence means exactly 1, 2, ..., n |
| `Coalesce.MergeEvents` | app/controllers/protocol.py:577-593 | the merging loop over event objects yields fresh objects holding `Merge`; it can modify no event handed in |
| `Coalesce.CoalesceEvents` | app/controllers/protocol.py:563-604 | merging then eliding, on objects, with every returned object fresh |
| `Coalesce.ElisionIsAccounted` | app/controllers/protocol.py:594-604 | head and tail survive, the marker accounts for everything between, and the result fits the cap or is three events |
| `CoalesceTheorems.MergesAreNeighbours` | app/controllers/protocol.py:577-593 | the pass joins exactly the mergeable neighbours of the original transcript |
| `CoalesceTheorems.MergeIsComplete` | app/controllers/protocol.py:577-593 | no mergeable adjacent pair remains |
| `CoalesceTheorems.MergeIsIdempotent` | app/controllers/protocol.py:577-593 | coalescing twice is coalescing once |
| `CoalesceTheorems.RenderingPreserved` | app/views/js/chat.js:231-234 | the same text stands between the same other events, in order, before and after, for texts of any kind as long as the merged ones are stored as they are shown |
| `CoalesceTheorems.RenderingPreservedIff` | app/views/js/chat.js:231-234 | for string, absent and null texts, rendering is preserved if and only if no null text belongs to a delta that merges |
| `Replay.PartContained` | app/controllers/protocol.py:577-593 | the stored transcript is the original cut into consecutive stretches, each contained in one stored event |
| `Replay.ResumeLosesNothing` | app/controllers/runs.py:105-119 | every event numbered above the resume point lies in a stretch contained in a replayed event, and the terminal event comes last |
| `Replay.AtMostOneMixed` | app/controllers/runs.py:105-119 | at most one replayed event mixes seen and unseen text |
| `Replay.SkippedIsSeen` | app/controllers/manager.py:937-947 | a skipped event stands for nothing numbered above the resume point |
| `FanOut.Offer` | app/controllers/manager.py:912-934 | the put, evict, retry loop: a full queue loses its oldest event, and takes the new one only when forced |
| `FanOut.ActiveRun.Subscribe` | app/controllers/manager.py:112-132 | a new bounded queue holds the unseen backlog as offered event by event, and is registered |
| `FanOut.ActiveRun.Publish` | app/controllers/manager.py:664-675 | one event is recorded and offered once to every registered queue, and to no other; the refusals are counted |
| `FanOut.ReplayDeliversLastIff` | app/controllers/manager.py:122-131 | a replay keeps its last event if and only if it fits the bound or overshoots it by an even number |
| `FanOutProtocol.ExactlyOnce` | app/controllers/manager.py:112-139 | over every interleaving, what is received, queued and being offered are the events the subscriber is owed, each once, up to those lost to overflow; the queue keeps its bound |
| `FanOutProtocol.StepConserves` | app/controllers/manager.py:664-675 | each step moves an event between its possible places and adds exactly the newly owed one |
| `FanOutProtocol.TerminalReachesTheQueue` | app/controllers/manager.py:762-775 | over any schedule the terminal event is still to be offered or one of the puts made has queued it |
| `FanOutProtocol.TerminalCanBeLostIff` | app/controllers/manager.py:762-775 | a queued terminal event can still be lost if and only if the broadcasts in flight can overflow the queue |
| `FanOutProtocol.QuietCloseDelivers` | app/controllers/manager.py:762-775 | with nothing in flight every continuation delivers the terminal event or still has it queued |
| `FanOutProtocol.CancelRaceLosesTerminal` | app/controllers/manager.py:311-314 | the broadcast of a cancel that the close overtakes evicts the terminal event |
| `Registry.ResidentRunner.RegisterFresh` | app/controllers/runner.py:519-534 | create's second section; it keeps the maps in agreement exactly if the sandbox is still there |
| `Registry.ResidentRunner.RegisterRespawn` | app/controllers/runner.py:981-986 | a respawn registers only on a sandbox that still exists |
| `Registry.ResidentRunner.DetachIfIdle` | app/controllers/runner.py:577-593 | detaches exactly a registered, stale sandbox without a live run |
| `Registry.ResidentRunner.DetachIfRunning` | app/controllers/runner.py:600-603 | detaches exactly a sandbox whose live run is the given one |
| `Registry.ResidentRunner.RetireTransport` | app/controllers/runner.py:619-625 | drops the registered transport only if it is the one meant |
| `Registry.ResidentRunner.ClaimLiveRun` | app/controllers/runner.py:663-676 | claims the slot of an existing sandbox, and never adds a key for a vanished one |
| `Registry.ResidentRunner.ReleaseLiveRun` | app/controllers/runner.py:678-684 | frees the slot without resurrecting a destroyed sandbox |
| `Registry.ResidentRunner.ReapIdle` | app/controllers/runner.py:645-659 | a sweep destroys exactly the stale sandboxes without a live run and leaves every other entry alone |
| `Registry.RegistryInvariantIff` | app/controllers/runner.py:508-591 | at every moment of every sequence of sections transports and locks have the same keys, contained with those of live runs in the sandboxes, if and only if no removal slips into a `create` |
| `Registry.OrphanStays` | app/controllers/runner.py:511-526 | a transport registered after its sandbox was removed is never reaped, claimed or replaced |
| `Registry.ResidentRunner.KeysAgreeIff` | app/controllers/runner.py:528-575 | the five maps agree exactly when the entries of every sandbox do |
| `Registry.LiveRunIsShielded` | app/controllers/runner.py:553-603 | over any sequence of sections a claimed sandbox stays claimed throughout, exactly when none is the release, another claim, an unconditional destroy, its own escalation or a second registration |
| `ExecInvariant.ActKeepsInv` | app/controllers/runner.py:920-1057 | every step inside the exec lock keeps the handshake, live-run and registry invariants |
| `ExecInvariant.EnvKeepsInv` | app/controllers/runner.py:536-603 | so does every destroy, sweep, escalation, touch and crash, at any step of an exec |
| `ExecProtocol.OneExecAtATime` | app/controllers/runner.py:895-918 | over every interleaving on a sandbox registered with an exec lock, or registered bare as long as only one lock is ever made, at most one exec is inside, and the live-run check never fires |
| `ExecSchedules.OverlapIff` | app/controllers/runner.py:908-913 | two execs can be inside together if and only if the sandbox was created without an exec lock |
| `ExecProtocol.LiveRunSafety` | app/controllers/runner.py:1015-1057 | while a run holds the slot nothing takes the slot, the transport or the sandbox but its own release, an unconditional destroy or its own escalation |
| `ExecProtocol.HandshakeHonoured` | app/controllers/runner.py:753-824 | whether or not the eager spawn succeeded, as long as one exec lock serializes the execs, every transport ever spawned gets at most one hello, only if it advertised hellos, and tagged; every submit follows its own ready line with a supported version, recorded as the sandbox's handshake, and is tagged only if it advertised `op_id` |
| `ExecSchedules.ContractKeptIff` | app/controllers/runner.py:908-913 | that contract is kept on every run of a sandbox if and only if `create` registered it with an exec lock; without one, a submit can go out under the handshake of another transport |
| `ExecProtocol.UnaskedTagIff` | app/controllers/runner.py:394-407 | over all reachable worlds a transport gets an `op_id` it did not advertise if and only if it was greeted and its build takes hellos without `op_id` |
| `ExecSchedules.HelloTagsUnasked` | app/controllers/runner.py:805-811 | a run from a freshly created sandbox that does so in its first exec |
| `ExecProtocol.StepsMeetTheirTransport` | app/controllers/runner.py:605-628 | no exec waits for a ready line already consumed, no transport is greeted again, and a submit is tagged as its build asked and follows its one hello, unless a transport found dead was replaced before |
| `ExecProtocol.NoProcessIsLost` | app/controllers/runner.py:920-999 | a living harness that announced itself is registered, being closed by a destroy, or held by the exec inside |
| `Lifecycle.RunTable.Insert` | app/models/entities.py:100-108 | a running row commits exactly if its conversation has no other running one |
| `Lifecycle.RunTable.WriteTerminal` | app/controllers/manager.py:954-1012 | the terminal write on the row that was loaded, sending only what changed since, or on a phantom row when none was found; a row deleted meanwhile is not written |
| `Lifecycle.RunTable.Reconcile` | app/controllers/manager.py:779-823 | the update rewrites exactly the matching rows and returns their number |
| `Lifecycle.RunRowSafety` | app/controllers/manager.py:143-280 | at every reachable state a conversation has at most one running row, a terminal row has had exactly one terminal write and a running one none, and a running row has its owner's live thread unless that thread was lost |
| `Lifecycle.ThreadEndsWithWriteIff` | app/controllers/manager.py:691-747 | a run's thread ends with the first terminal write and the computed verdict, exactly unless it never started, the write raised, its transaction failed, its row was deleted under it or the process crashed |
| `Lifecycle.ReturnedRunIsFinalizedIff` | app/controllers/manager.py:231-265 | a returned exec opens its terminal transaction, and its row is terminal once that commits, if and only if its lines can be digested and its token counts are numbers whose sum a float can hold; otherwise the row stays running |
| `Lifecycle.UnavailableRunEndsInError` | app/controllers/manager.py:200-220 | a run that got no sandbox ends `error`, with a reason, when its transaction commits |
| `Lifecycle.ReconciliationIsExact` | app/controllers/manager.py:779-823 | starting an instance changes exactly its own and the unowned running rows, and no row of a live run |
| `Lifecycle.ReconciliationUnlocks` | app/controllers/manager.py:779-823 | the conversation of a dead run accepts a new run afterwards |
| `Lifecycle.LostRowIsFreedOnlyBy` | app/controllers/manager.py:1106-1118 | a running row without a thread stays until its conversation is deleted or an instance starts under its owner's id |
| `Lifecycle.CancelStraddlesTheEnd` | app/controllers/manager.py:297-310 | a run that ends between a cancel's read of its status and the cancel's commit is `done` and `cancelled` at once |
| `Lifecycle.CommittedFlagIff` | app/controllers/manager.py:954-985 | over any interleaving the committed row is `cancelled` if and only if the run was, or a cancel marked a so far unmarked row between the terminal transaction's read and its commit |
| `Lifecycle.CompletedRunFlipsIff` | app/controllers/manager.py:297-310 | a completed run can still turn `cancelled` if and only if a cancel that read its row before the terminal write has not committed yet |
| `RateLimit.SlidingWindowLimiter.Check` | app/infra/ratelimit.py:47-57 | the pop loop leaves the key's deque and gives the verdict that `CheckHits` says, and touches no other key |
| `RateLimit.RedisRateLimiter.Check` | app/infra/ratelimit.py:77-120 | the script's effect on the key and its reply, and failing open on an outage |
| `RateLimit.NoWindowOverflows` | app/infra/ratelimit.py:47-57 | no interval of the window's length, wherever it lies, holds more than `limit` allowed checks |
| `RateLimit.RefusedOnlyWhenFull` | app/infra/ratelimit.py:47-57 | a check is refused if and only if `limit` allowed ones lie in (now - window, now] |
| `RateLimit.RetryAfterIsTight` | app/infra/ratelimit.py:47-57 | waiting exactly `retry_after` succeeds, any shorter wait is refused and costs nothing |
| `RateLimit.KeysAreIndependent` | app/infra/ratelimit.py:47-57 | each key's deque is what its own checks alone, against its own limit and window, would have made it |
| `RateLimit.ExpiryDiscardsOnlyStaleHits` | app/infra/ratelimit.py:77-87 | key expiry never discards a hit still inside the window |
| `RateLimit.TwinAlways` | app/infra/ratelimit.py:101-120 | over every history with a limit of at least one both backends give the same verdicts and waits and hold the same hits |
| `RateLimit.BackendsAgreeIff` | app/infra/ratelimit.py:101-120 | the backends agree on a non-empty history if and only if the limit is at least one |
| `Quota.StreamUpload` | app/controllers/files.py:95-117 | an upload is kept byte for byte if and only if the reader ends, its first chunk passes the gate and the whole body fits, however it is chunked; a refused one leaves no file and complains of the first overrun; a reader that raises leaves the partial file |
| `QuotaProtocol.QuotaHolds` | app/controllers/files.py:95-157 | under every interleaving of uploads and deletes, with every external call free to fail, the uploads that passed their recheck fit the quota together, so the stored total does whenever every row has passed |
| `QuotaProtocol.LeftBehindIff` | app/controllers/files.py:95-157 | exactly which ends of an upload leave a row, a workspace file or a durable object behind, in terms of the answers the environment gave and of the artifact sweeps and downloads in between |
| `QuotaProtocol.SweepLeavesObject` | app/controllers/files.py:205-239 | a sweep that stores the partial file of an upload leaves an object when the upload is refused |
| `QuotaProtocol.ConversationDeletionKeepsObject` | app/controllers/conversations.py:65-79 | deleting a conversation drops row and file of an upload and keeps its object |
| `QuotaProtocol.AbortLeavesFile` | app/controllers/files.py:101-117 | a body that breaks off leaves its partial file |
| `QuotaProtocol.PartialPutLeavesObject` | app/controllers/files.py:122-128 | a put that fails half-way leaves a partial object that no row names |
| `QuotaProtocol.CommitFailureLeavesBoth` | app/controllers/files.py:129-140 | a commit that fails leaves both copies without a row |
| `QuotaRace.BothLoseIff` | app/controllers/files.py:141-157 | of two committed uploads that fit alone but not together, over every interleaving in which both finish exactly one is kept, except that both are rolled back if and only if each rechecks before the other's row is removed |
| `QuotaRace.BothRacersMayLose` | app/controllers/files.py:95-157 | from any start in which each upload fits and both do not, a schedule accepts both prechecks and rolls both back without a trace |
| `QuotaRace.RecheckFailuresOverrun` | app/controllers/files.py:141-157 | two rechecks whose queries raise keep both uploads and leave the total above the quota |

## Left out

- ReadLinesRefineBatch: asks that no frame declares more than the cap; past it the result depends on the cuts (`CutsInvisibleIff`), and only the bounds and termination are claimed.
- OutcomeSurvivesTheCap: about lines without inner line boundaries; `OutcomeSurvivesCapAndBreaks` is about the others. Both ask that `json.loads` reads a line and its stripped form alike, which real JSON grants unless a line begins or ends in a blank JSON does not know.
- BrokenLinesVanish: asks that no fragment of a broken line is an event or raises; JSON's grammar is not part of the model, and `NestedObjectIsFolded` and `FragmentCanRaise` show what happens otherwise.
- RenderingPreservedIff: the converse is left open for texts that are neither strings, null nor absent (`RenderingPreserved` covers them in the other direction): unequal stored and shown texts can still add up to the same line.
- ResumeLosesNothing: over the uncapped transcript with strictly increasing integer numbers; an elided middle is accounted for by `ElisionIsAccounted` only.
- ExactlyOnce: one subscriber's view; queues of different subscribers share no state, so each has its own instance of it.
- ActiveRun.Publish: the broadcast with no other thread between its offers, on real queue objects; the interleaved broadcast is `FanOutProtocol`.
- ReapIdle: the sweep with no other thread between its candidates; under interleaving each candidate's section still does what `DetachIfIdle` says.
- OneExecAtATime: like the other theorems of `ExecProtocol`, for sandboxes on which all execs share one lock; where two are made it fails (`OverlapIff`, `ContractKeptIff`).
- NoProcessIsLost: a process given up before its ready line arrived is not covered; the code does not close it.
- HandshakeHonoured: a transport found dead stays dead, and a harness prints one ready line; a hello or submit counts when it is attempted; the tags of `cancel` and `answer` ops sent by other threads are not modelled.
- QuotaHolds: a fixed positive quota and one user; a deployment without a quota runs no recheck.
- LeftBehindIff: a commit that raises is one that did not land; what a sweep or a download copies is a file, not its bytes; an upload still in flight when its conversation is deleted is not modelled.
- FinalizedIff: `str` of a decoded value is taken to succeed, however deeply it is nested; the ledger's integer columns may still refuse a count inside the transaction; that is `CommitFails` in `Lifecycle`.
- BothLoseIff: no further upload commits, nothing is deleted and the database answers while the two finish; otherwise room appears or vanishes under them.
- ReconciliationIsExact: instance ids name processes; two processes started under one id at the same time are not modelled.
- CommittedFlagIff: the terminal row is flushed when its transaction commits; a database that locks it earlier only makes a cancel wait.
- NoWindowOverflows: clock readings are exact reals, so rounding of floats is not covered; the same holds for the Redis scores.
- Draining at shutdown, the reconciliation of sandbox rows, the retirement of sandbox rows and `_ensure_sandbox`'s reuse rules: row updates without interplay beyond what is modelled for runs.
- The watchdog thread that cancels and interrupts a run on its deadline: to the pump it is an EOF that may come at any time, to the exec protocol a transport that may die at any time.
- Sanitizing and size-capping of single events, metering against the token allowance, `ask` bookkeeping: per-event plumbing.
- UTF-8 decoding of returned lines, the contents of `ready` beyond version and capabilities, file-name cleaning and content sniffing (a parameter of `StreamUpload`).
- Subprocess, container, socket, Redis, SQL, object-store and HTTP calls themselves, accounts, secrets, billing sums, metrics and logging.
