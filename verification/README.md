# Relayer: a verified model

This project models the message relayer of `relayer/` in Dafny, and proves what its parts
promise: the life cycle of a message between the cache, the three stores and the chains, the two block
listeners that feed it, the stores on their shared key-value database, and the small ICON codecs.
`dafny verify dfyconfig.toml` checks everything.

## How it is built

- `Types.dfy`: messages, keys, store entries, tx objects, uint64 arithmetic.
- `RelaySpec.dfy`: the relayer as a state machine with nine atomic steps, one for each answer that a provider
  or the database may give. `O` is the identity of RouteMessage objects, so that a flush can replace an object
  in the cache while an older one is in the air. The field `h` of a state, and `start` and `failedWrites` of an
  object, are history that no step reads.
- `RelayFrames.dfy`, `RelayInvariants.dfy`, `RelayNoLoss.dfy`, `RelayAttempts.dfy`, `RelayFlight.dfy`,
  `RelayFinality.dfy`, `RelayLife.dfy`, `RelayHeights.dfy`, `RelayRuns.dfy`, `RelayFlush.dfy`, `RelayAnswers.dfy`,
  `RelayEffects.dfy`: its properties, for every step and over every run.
- `RelayOverwrite.dfy`, `RelayEndless.dfy`, `RelayStaleScan.dfy`, `RelayFifteen.dfy`: runs that show why the properties need
  their conditions, and that a limit is reached.
- `Relayer.dfy`: the objects and loops of the program. Each method is tied to the machine through `Abs()`, and
  `Serve` runs them under every schedule.
- `Restart.dfy`: sessions on one database.
- `Fetch.dfy`, `Listeners.dfy`: the worker queue, the forwarding of fetched blocks, and the two listeners.
- `Strings.dfy`, `StoreKeys.dfy`, `Store.dfy`, `StoreRefinement.dfy`, `StoreLaws.dfy`, `StoreScans.dfy`: keys, stores, the refinement
  of three independent maps, what a write changes for all reads, scans, counts and pages.
- `IconOptions.dfy`, `IconTypes.dfy`, `IconReads.dfy`: the codecs, and which texts they read.

## Assumptions

- Each step of `RelaySpec.Step` is atomic. In particular the check of IsProcessing, the start of the route
  goroutine, and its first two statements (relayer/relay.go:252-268, 352-354) are one step. A step works on one message or
  tx object; a loop of the program is a sequence of steps, and other steps may come between. The program makes some steps with
  several calls, between which the model lets no other step come: a flush scans one chain and inserts what it found; a finality
  scan copies the height and reads the tx objects of one chain; a finality check deletes the tx object, generates the message
  and inserts it; a callback or a failure writes to a store and changes the cache. The scan of a chain and each check of what
  it saw are separate steps.
- A listener delivers messages whose `Src` is its own chain. `GenerateMessage` returns a message with
  the key that it was asked for, or an error. Each attempt ends once, by an error of Route or by one callback.
- "No silent loss" needs that (Src, Sn) and (Dst, Sn) identify a message. `RelayOverwrite` shows what happens when the second fails.
- Scans are exact when NIDs are prefix-free; `StoreScans.ExactScan` has the exact condition.
- Heights are natural numbers; where uint64 or int64 arithmetic can wrap it is written out. The Retry counter does not wrap.
- The database is a map from byte strings to values with an ordered prefix iterator, and encoding is lossless. Bytes are chars.
- In both listeners one pass of the loop is one step; notifications that arrive during a batch belong to the next one. The
  drain of an ICON reconnect is one step; `Listeners.DrainMustBeOneStep` shows that this matters. The ICON chain has at least one block.
- A session of the restart theorem processes a first part of what its listener sent, and its writes to the block store succeed.

## What turned out not to hold

- A limit of 15 attempts per message: a flush brings a message back with its old Retry count while it is cached or in the air,
  and a failed write, a failed delete, a second delivery and a regeneration each allow any number of attempts too.
- A tx object is kept by destination and number only, so a second source with the same number replaces it.
- A finality check deletes by key: a tx object that a success recorded since the scan goes with it, before it is final.
- The processed heights of all sessions together have a hole when a session stops below the first height of those before it, and
  may have one when a session leaves the saved height 0. ICON restarts move the saved height down by one each time.
- The pages of `WithPage` leave out the elements from `limit` to `2 * limit - 1`, and the last page has no elements.
- `HexInt.BigInt` and `HexInt.Value` disagree on negative numbers.

## Model

| member | source | states |
|---|---|---|
| `RelayInvariants.RunWellFormed` | relayer/relay.go:188-396 | in every reachable state: key k of a cache holds a message of key k and of that chain; an attempt in the air belongs to a known object, with its key, source and destination; stores hold what their slots say; retry counters keep their limits |
| `RelayInvariants.StepWellFormed` | relayer/relay.go:188-499 | every one of the nine atomic steps keeps all of that, for every answer of a provider or of the database |
| `RelayInvariants.InitWellFormed` | relayer/relay.go:73-114 | it holds after a start on any database that an earlier session left, also one whose writes failed |
| `RelayInvariants.CanAlwaysLand` | relayer/relay.go:306-361 | an attempt in the air can always end, in each of its three ways: nothing that a callback looks up is missing |
| `RelayInvariants.FlushEnters` | relayer/relay.go:188-239 | what a flush puts in the cache of a chain is a stored, idle message of that chain below Retry 15 |
| `RelayInvariants.NotStaleOnly` | relayer/types/types.go:68-70 | exactly the messages with less than fifteen attempts are kept |
| `RelayFlush.ActiveIff` | relayer/relay.go:222-239 | an entry of the scan is selected if and only if it was attempted less than fifteen times, and at most ten such entries stand before it |
| `RelayFlush.FlushCaches` | relayer/relay.go:188-219 | so a flush makes exactly these stored messages new objects, with their retry counts, and leaves all others |
| `RelayNoLoss.NothingLostIff` | relayer/relay.go:241-499 | no silent loss: when sources number their messages, then in every state of a run each message ever delivered is pending, cached, stored, watched in the finality store, confirmed, or in one of the two explicit drops (unknown destination, failed regeneration), if and only if, whenever a success or a check of the run displaces the tx object of another message, that message is held elsewhere |
| `RelayNoLoss.StepKeepsAll` | relayer/relay.go:306-499 | one step keeps all messages accounted for if and only if it does not displace the tx object of another message that is nowhere else: a success by taking its place, a check by deleting what took the place of the one it scanned |
| `RelayNoLoss.DisplacingIsClash` | relayer/store/finalityStore.go:45-61 | that needs two messages for one destination with one number |
| `RelayNoLoss.DistinctNumbersHoldVictims` | relayer/store/finalityStore.go:45-61 | so the condition holds in every run where numbers are distinct at each destination |
| `RelayNoLoss.InitNoLoss` | relayer/relay.go:73-114 | nothing is lost at the start |
| `RelayAnswers.StepCloses` | relayer/relay.go:241-499 | exactly which answers close a message: the destination has it, when asked about an idle message, or says so by a good receipt of a final transaction, or by a success on a chain without finality depth; its destination is not configured; its transaction has a bad receipt and GenerateMessage fails |
| `RelayAnswers.RunCloses` | relayer/relay.go:241-499 | over every run a message is closed if and only if one of these answers came |
| `RelayAnswers.InCareUnlessClosed` | relayer/relay.go:241-499 | no silent loss in terms of answers: each message ever delivered or stored waits, is cached, stored or watched at the end of a run, unless an answer of the run closed it |
| `RelayAnswers.ProcessChangesNothing` | relayer/relay.go:252-262 | an iteration changes nothing if and only if the destination is configured and an attempt is outstanding, the chain is not willing, or the query fails |
| `RelayAnswers.SurvivesRestart` | relayer/relay.go:73-114 | what the next session has of a message: exactly what was stored or watched |
| `RelayEffects.StepCache` | relayer/relay.go:188-499 | exactly these answers take a message out of a cache (settled, sent, or shelved after a round), exactly these steps bring one in as a new object, and everything else leaves the object there |
| `RelayEffects.StepStore` | relayer/relay.go:363-396 | exactly the end of a round of three writes a message to the store, idle and with its retry count, and exactly a settled or sent message is deleted, by source and number |
| `RelayEffects.StepAttempts` | relayer/relay.go:252-361 | an attempt starts exactly when the destination, asked about an idle message, does not have it; a start counts one retry, a failure gives the object back, nothing else changes an object; and an attempt leaves the air exactly when it ends |
| `RelayEffects.BlockEffect` | relayer/relay.go:276-297 | a block sets the heights, saves when it has messages or lies more than ten above the saved height, and each of its messages is known and waits as often as the block has it |
| `RelayEffects.RetiresWhen` | relayer/relay.go:427-473 | a check retires a tx object exactly when the scanned one, of this destination and number, is deep enough, its receipt is known, the delete works, and the receipt is good or the source chain is configured |
| `RelayOverwrite.SharedNumberLosesMessage` | relayer/store/finalityStore.go:50-54 | when two sources use one number for one destination, a run exists that leaves the first message nowhere, with no record of a drop |
| `RelayAttempts.AttemptsBounded` | relayer/relay.go:343-382 | over every run: attempts started <= 3 * (objects ever put in a cache + failed writes to the message store) |
| `RelayAttempts.ObjectAttemptsBounded` | relayer/relay.go:363-382 | every object enters with Retry 0, 3, 6, 9 or 12 and gets at most one round of three, plus three for each of its writes that failed |
| `RelayAttempts.WaitingIsNotUsedUp` | relayer/relay.go:363-382 | in every reachable state an idle cached object is not at the end of its rounds, and a stored message is idle after whole rounds of three: at Retry 15 at most, plus three for each write that failed in this session or an earlier one |
| `RelayAttempts.AttemptsOfOneMessageUnbounded` | relayer/relay.go:215-217 | 15 attempts per message is false: for every n a run of flush, dispatch and route errors starts n attempts for one stored message |
| `RelayLife.FifteenTries` | relayer/types/types.go:8-12 | it is true, for one message and whatever happens to others, in runs that do not deliver it again, do not regenerate it, write and delete it successfully, and do not flush it while it is cached or in the air |
| `RelayFifteen.FifteenReached` | relayer/types/types.go:8-12 | and the limit is reached: a run in which one delivered message is tried fifteen times, in five rounds with a flush between |
| `RelayEndless.DeliveryIsShelved` | relayer/relay.go:343-383 | a delivered message comes to the store after three failed attempts: the start of those runs is reached from a delivery |
| `RelayEndless.RedeliveriesUnbounded` | relayer/relay.go:276-297 | each condition of FifteenTries is needed: for every n there is a run with n attempts for one message that breaks only this one, by delivering the message again |
| `RelayEndless.RegenerationsUnbounded` | relayer/relay.go:455-495 | by regenerating it after a bad receipt |
| `RelayEndless.FailedWritesUnbounded` | relayer/relay.go:363-383 | by failing to write it to the message store |
| `RelayEndless.FailedDeletesUnbounded` | relayer/relay.go:385-396 | by failing to delete it from the message store after a success |
| `RelayLife.DeadForever` | relayer/relay.go:222-239 | a message stored at Retry 15 and nowhere else stays so in every run that does not deliver it anew: no flush brings it back |
| `RelayLife.StepOthers` | relayer/relay.go:241-499 | a step that is not about a message changes nothing about it: cache entry, object, stored copy, attempts |
| `RelayFlight.SingleFlightIff` | relayer/relay.go:252-268 | one attempt per message, and IsProcessing tells exactly whether it is outstanding (or succeeded without its tx object being written), in all states of a run, if and only if no step re-inserts a message in flight |
| `RelayFlight.StepSingleFlight` | relayer/relay.go:306-383 | the same, one step at a time |
| `RelayFlight.InitSingleFlight` | relayer/relay.go:73-114 | it holds at the start |
| `RelayFinality.StepFinality` | relayer/relay.go:306-495 | what one step does to the place of a tx object, exactly: a success on a chain with a finality depth puts its record there; a check empties it, if and only if the tx object that the scan saw is final for the height that the scan saw, the receipt query answered, the delete worked, and the receipt is good or the source chain is configured; nothing else changes it |
| `RelayFinality.TxObjectsAreSuccesses` | relayer/relay.go:319-334 | over every run: a tx object was there at the start or records a success of the run |
| `RelayFinality.TxObjectsStayUntilFinal` | relayer/relay.go:427-495 | over every run: the place of a tx object is empty only after a check retired what a scan saw there; receipt errors never empty it |
| `RelayFinality.ScanSees` | relayer/relay.go:414-418 | a scan sees the tx objects of the chain, one for each place, and copies its last height |
| `RelayFinality.AtItsPlace` | relayer/relay.go:415-473 | between a scan and the check of a tx object anything may happen: the scan keeps its height, and in the place is what the scan saw, or the record of the last success since then |
| `RelayFinality.CheckDeletesScanned` | relayer/relay.go:427-495 | so a check that deletes removes the very tx object that the scan saw, which was final then, if and only if no success since the scan recorded something else last |
| `RelayStaleScan.NewerTxObjectDeletedEarly` | relayer/relay.go:427-473 | otherwise it can delete a record that is not final: a message whose delete failed is sent again, and its success records a newer transaction between the scan and the check |
| `RelayFinality.TxObjectsKeepTheirMessage` | relayer/store/finalityStore.go:45-61 | what replaces a tx object in between is for the same message |
| `RelayFinality.FinalIsDeep` | relayer/relay.go:432-442 | final means TxHeight + FinalityBlock <= the height that the scan copied, with TxHeight not 0, while the uint64 sum does not wrap |
| `RelayHeights.SaveGap` | relayer/relay.go:286-297 | LastSavedHeight <= height <= LastSavedHeight + 10 after a block if and only if it has messages or the height did not fall from the last ten uint64 values to the first ones; a block with messages is the saved one |
| `RelayHeights.SaveGapInRuns` | relayer/relay.go:276-297 | the bound holds in every run for heights below 2^64 - 10, on any sequence of heights |
| `RelayHeights.RunSaves` | relayer/relay.go:276-297 | in every run the saved height of a chain depends on the blocks of that chain alone, and a restart reads it back if writes succeed |
| `RelayHeights.StepHeights` | relayer/relay.go:188-499 | no other step touches heights or the block store |
| `RelayRuns.Reached` | relayer/relay.go:29-64 | well-formedness and no loss for every state reached from a start |
| `RelayRuns.NextSessionStarts` | relayer/relay.go:73-114 | after any run, with any failed writes, a relayer started on the database that it leaves is in a start state again |
| `RelayRuns.RunJoin` | relayer/relay.go:172-186 | runs compose |
| `Restart.StartsAtOrBelowSaved` | relayer/chains/evm/listener.go:238-265 | a restart never starts above a nonzero saved height, also when latest - FinalityBlock wraps |
| `Restart.EvmStart` | relayer/chains/evm/listener.go:238-265 | the three priorities of an EVM restart with the final head = latest - FinalityBlock: the saved height if 0 < saved < head, else the configured one if 0 < configured < head, else head |
| `Restart.EvmStartWraps` | relayer/chains/evm/listener.go:244-244 | a head below the finality depth wraps around to a height above the others |
| `Restart.IconStart` | relayer/chains/icon/listener.go:300-325 | the three priorities of an ICON restart, with the head as it is |
| `Restart.ConfiguredSession` | relayer/chains/evm/listener.go:257-260 | a first session with a configured height below the head processes exactly the heights from there on, and from one below for ICON |
| `Restart.SavedSession` | relayer/chains/icon/listener.go:313-316 | a session with a saved height below the head does so from there, whatever is configured |
| `Restart.NoGapAcrossRestarts` | relayer/relay.go:98-102 | over any sequence of sessions on one database, no height is missing from the first one processed by the first session to the highest ever processed, if every session that processes a block leaves a nonzero saved height |
| `Restart.NeverAHoleFromTheStart` | relayer/relay.go:98-102 | for the whole union of processed heights: after no session a height is missing between two processed ones, if and only if each session that starts below all heights so far goes on until it meets them |
| `Restart.NeverAHoleIff` | relayer/chains/evm/listener.go:238-265 | the same from any database whose sessions so far processed one range of heights that has the saved one |
| `Restart.TwoSessionsHole` | relayer/chains/evm/listener.go:252-264 | for two sessions: the second one leaves a hole if and only if it stops below the first height of the first one |
| `Restart.HoleBelowTheFirstHeight` | relayer/chains/evm/listener.go:257-260 | two EVM sessions that do: a lower configured height, and a node that is behind |
| `Restart.ForgettingLeavesGaps` | relayer/chains/evm/listener.go:252-264 | the condition of a nonzero saved height is exact: no next session of the same kind can leave a gap above the first height if and only if the saved height is not 0 |
| `Restart.FirstSessionSaves` | relayer/relay.go:286-297 | a session that starts from nothing saved leaves a nonzero height if and only if it goes beyond height 10 or has a message above height 0 |
| `Restart.LaterSessionSaves` | relayer/relay.go:286-297 | a session that restarts from a saved height saves one of its own blocks; it stays at its first block if and only if it has at most 11 blocks and no message after the first |
| `Restart.RunIsSession` | relayer/relay.go:276-297 | a run of the relayer machine saves what the session model says, when its blocks are the first ones that the listener sent |
| `Restart.EvmSession` | relayer/chains/evm/listener.go:81-105 | and the first blocks that an EVM listener sent, in whatever schedule it ran, are those of a session |
| `Restart.IconSession` | relayer/chains/icon/listener.go:105-127 | the same for an ICON listener |
| `Restart.IconRestartCreeps` | relayer/chains/icon/listener.go:105-118 | an ICON session stopped early and without messages moves the saved height down by one, if and only if it has at most 11 blocks and no message after the first |
| `Restart.IconRestartsForget` | relayer/chains/icon/listener.go:300-325 | so that many such sessions make the relayer forget its height |
| `Listeners.GetConcurrency` | relayer/chains/evm/listener.go:222-236 | the number of workers is at least 1 if and only if the limit or the uint64 gap is below 2^63, and then it is the smaller of the limit and max(gap, 1) |
| `Listeners.EvmListener.Listen` | relayer/chains/evm/listener.go:39-200 | for every schedule of ticks, polls, deliveries and batches, with any answers, the heights sent are start, start + 1, ... up to next - 2, each once; next - 1 is held back; each event does exactly what the answers ask for, but for the tip when a height is 0 |
| `Listeners.EvmListener.Receive` | relayer/chains/evm/listener.go:81-105 | all waiting notifications are handed on but the last, up to the first block in which FindMessages fails: there, and only then, the listener stops |
| `Listeners.EvmListener.SyncBatch` | relayer/chains/evm/listener.go:107-197 | one batch asks for next ... up to the tip or the channel capacity, with three retries each, queues the heights up to the first that no fetch got, and leaves the lowest tip that the answers have shown |
| `Listeners.EvmAllFetched` | relayer/chains/evm/listener.go:120-197 | when the first fetches of a batch succeed, all its heights are queued, and the tip stays |
| `Listeners.EvmListener.Pass` | relayer/chains/evm/listener.go:62-198 | one event: the tip moves, or all waiting notifications but the last go out (or an unbroken part of them, and the listener stops), or a batch is fetched when none waits and the tip is ahead |
| `Listeners.EvmListener.HandOn` | relayer/chains/evm/listener.go:83-105 | the loop over the waiting notifications |
| `Listeners.EvmListener.HandOnOne` | relayer/chains/evm/listener.go:83-99 | one pass: the last notification goes out if FindMessages succeeds |
| `Listeners.EvmListener.NextHeights` | relayer/chains/evm/listener.go:120-124 | the requests of a batch |
| `Listeners.EvmListener.HeightTick` | relayer/chains/evm/listener.go:68-70 | the ticker moves the tip by one, in uint64 |
| `Listeners.EvmListener.HeightPoll` | relayer/chains/evm/listener.go:72-79 | the poller only raises the tip |
| `Listeners.EvmListener.constructor` | relayer/chains/evm/listener.go:53-60 | a listener starts with nothing sent and nothing held back |
| `Listeners.IconListener.Listen` | relayer/chains/icon/listener.go:74-209 | for every, even adversarial, sequence of notifications, and with reconnects at any time, the heights sent are start - 1, start, ... up to processed - 2, and the response queue always holds processed, processed + 1, ... |
| `Listeners.IconListener.Pass` | relayer/chains/icon/listener.go:75-208 | one event: a notification is queued, a reconnect empties both channels, the token is taken, all responses are handed on, or the waiting notifications are taken |
| `Listeners.IconListener.TakeNotifications` | relayer/chains/icon/listener.go:132-158 | a batch is requested if and only if the waiting notifications are exactly the next heights; otherwise the first one that is not stops the listener if it does not parse, and makes it reconnect if it does |
| `Listeners.IconListener.RequestBatch` | relayer/chains/icon/listener.go:129-207 | then each height is fetched with five retries, and the heights from processed up to the first that no fetch got are queued |
| `Listeners.IconAllFetched` | relayer/chains/icon/listener.go:133-205 | when the first fetches succeed, all notified heights are queued |
| `Listeners.IconListener.HandOn` | relayer/chains/icon/listener.go:105-127 | all waiting responses are handed on with their height less one |
| `Listeners.IconListener.Reconnect` | relayer/chains/icon/listener.go:46-57 | a reconnect sets the token and empties both channels |
| `Listeners.IconListener.OnNotification` | relayer/chains/icon/listener.go:89-95 | the monitor callback queues a notification while there is room |
| `Listeners.IconListener.constructor` | relayer/chains/icon/listener.go:40-67 | the listener starts with a reconnect pending |
| `Listeners.DrainMustBeOneStep` | relayer/chains/icon/listener.go:51-56 | if a reconnect drains only some of the responses before the rest are handed on, the stream has a gap: it has none if and only if the drain was empty or complete |
| `Listeners.HandedOnAppends` | relayer/chains/icon/listener.go:105-127 | handing on never looks at the height of a response |
| `Fetch.Collect` | relayer/chains/evm/listener.go:125-179 | the worker queue, for every schedule and every answer: it ends; the result of a request is its block if and only if one of its fetches succeeds before the retries are used up or, when the tip is honoured, a height beyond it is found; it makes as many fetches as the answers ask for; the tip becomes the lowest one found; its states follow the events of the loop, the channel never holds more than its capacity, and it is closed in the last one only, when nothing is queued and no worker is out |
| `Fetch.ReceiveConsistent` | relayer/chains/icon/listener.go:161-186 | receiving a request keeps each request in exactly one place, with a fetch count that matches its retries |
| `Fetch.ReceiveHeard` | relayer/chains/evm/listener.go:127-153 | what the loop knows of each request agrees with the answers of its fetches |
| `Fetch.WorkerEndsConsistent` | relayer/chains/icon/listener.go:212-218 | so does a worker that ends, it finds room in the channel, and the batch comes closer to its end |
| `Fetch.ReceiveMoves` | relayer/chains/icon/listener.go:160-186 | receiving brings the batch closer to its end |
| `Fetch.ReceiveLowers` | relayer/chains/evm/listener.go:136-138 | the tip only moves to just below a requested height |
| `Fetch.ReceiveTip` | relayer/chains/evm/listener.go:128-139 | the tip is the lowest one that the answered requests have shown |
| `Fetch.AllCollected` | relayer/chains/icon/listener.go:160-186 | when there are as many results as requests, nothing is queued and no worker is out |
| `Fetch.CompactInPlace` | relayer/chains/evm/listener.go:180-186 | the in-place nil filter over the aliased slice keeps exactly the fetched blocks, in order |
| `Fetch.Forward` | relayer/chains/evm/listener.go:192-196 | the index test sends exactly next, next + 1, ... while each is present, and never more than the channel holds |
| `Fetch.CompactSortForward` | relayer/chains/icon/listener.go:187-205 | filter, sort and index test together send exactly the longest run from next among the fetched heights |
| `Fetch.CollectedValues` | relayer/chains/icon/listener.go:160-186 | the fetched heights of a batch are different, and all were requested |
| `Fetch.CollectedGets` | relayer/chains/icon/listener.go:160-186 | a height is among the results if and only if one of its fetches succeeded in time |
| `Fetch.RunIsSent` | relayer/chains/evm/listener.go:180-197 | a batch for the heights from next on sends them up to the first one that no fetch got |
| `Fetch.AllIsSent` | relayer/chains/evm/listener.go:180-197 | so it sends all of them if and only if it got all of them |
| `Fetch.FetchRun` | relayer/chains/evm/listener.go:125-197 | one batch of either listener, from its requests to the output channel: it sends the heights from next up to the first that no fetch got |
| `Fetch.SortedValues` | relayer/chains/evm/listener.go:188-191 | sorting them gives a strictly increasing list of the same heights |
| `Relayer.Relayer.Serve` | relayer/relay.go:29-64 | the relayer from its start on, for every schedule of events and every answer: each event is its steps of the machine, all together are a run of it, the state stays well-formed, and nothing is lost when messages are numbered; a finality tick comes as one event or in parts, with other events between its scans and checks |
| `Relayer.Relayer.Handle` | relayer/relay.go:146-186 | each event is exactly its steps of the machine, with the answers that it came with |
| `Relayer.Relayer.ProcessMessages` | relayer/relay.go:241-271 | the loop is a run of process steps with the given answers; every message that stays in a cache was looked at exactly once |
| `Relayer.Relayer.ProcessMessage` | relayer/relay.go:243-268 | one iteration is the process step: clear for an unknown destination, skip, skip on error, clear when received, or dispatch |
| `Relayer.Relayer.FlushMessages` | relayer/relay.go:188-219 | the loop is a run of flush steps; with an empty store or a failed count nothing happens; a chain whose scan fails is skipped, all others are flushed once |
| `Relayer.GetActiveMessages` | relayer/relay.go:222-239 | the loop with its break returns the first eleven messages with less than fifteen attempts, or all of them |
| `RelayFlush.ActiveIsAFirstPart` | relayer/relay.go:230-237 | that is what is not stale in the whole scan, or in the shortest first part of it that has eleven such messages |
| `Relayer.Relayer.AddAll` | relayer/relay.go:215-217 | each message enters the cache as a new object |
| `Relayer.Relayer.FlushChain` | relayer/relay.go:198-218 | the flush step of one chain |
| `Relayer.Relayer.CheckChain` | relayer/relay.go:412-499 | the scan of one chain and all its checks; nothing when it has no finality depth |
| `Relayer.Relayer.ScanTx` | relayer/relay.go:415-418 | the copy of the height and the tx objects of the chain are the scan step |
| `Relayer.Relayer.CheckFinality` | relayer/relay.go:410-499 | the loop is a run of scan and check steps with the given answers; every chain with a finality depth is scanned once, unless its scan fails, and every tx object of a scan is checked |
| `Relayer.Relayer.CheckTx` | relayer/relay.go:427-495 | one iteration is the check step: it decides on the scanned tx object and height, and deletes by key |
| `Relayer.Relayer.CallbackSucceeds` | relayer/relay.go:311-341 | the success callback is the success step: with a depth, write the tx object of the cached message, then clear; without, clear |
| `Relayer.Relayer.CallbackFails` | relayer/relay.go:343-349 | the failure callback acts on the object that is in the cache now |
| `Relayer.Relayer.RouteFails` | relayer/relay.go:356-360 | a route error acts on the object that was dispatched |
| `Relayer.Relayer.StartRoute` | relayer/relay.go:352-354 | a dispatch sets IsProcessing and counts one retry |
| `Relayer.Relayer.HandleMessageFailed` | relayer/relay.go:363-383 | give back; after a whole round store and remove from the cache, unless the write fails |
| `Relayer.Relayer.ClearMessages` | relayer/relay.go:385-396 | the message leaves the cache, and the store unless the delete fails |
| `Relayer.Relayer.ProcessBlockInfo` | relayer/relay.go:276-297 | a block sets the heights and the block store, and hands its messages to the merge goroutine |
| `Relayer.ChainRuntime.SetHeights` | relayer/relay.go:286-297 | the heights of a chain after a block |
| `Relayer.Relayer.MergeMessages` | relayer/chain_runtime.go:33-42 | the loop merges exactly the messages of the block, in order, each as a new object |
| `Relayer.Relayer.constructor` | relayer/relay.go:73-114 | a new relayer is in a start state of the machine, on any database that an earlier session left; heights are read back unless the database was cleared |
| `Relayer.MessageCache.Add` | relayer/types/types.go:120-125 | an entry under the key of the message is replaced |
| `Relayer.MessageCache.Remove` | relayer/types/types.go:131-135 | an entry is removed |
| `Relayer.RouteMessage.BeginAttempt` | relayer/types/types.go:51-61 | IsProcessing and Retry change, the message does not |
| `Relayer.ProcessShrinks` | relayer/chain_runtime.go:44-48 | processing adds nothing to the cache that is iterated |
| `StoreKeys.SlotKeyInjective` | relayer/store/messageStore.go:93-105 | message keys tell (Src, Sn) apart, and finality keys (Dst, Sn), for any NIDs, with dashes too |
| `StoreLaws.MessageKeys` | relayer/store/messageStore.go:98-98 | two messages have one place, and one key, if and only if they have one source and number |
| `StoreLaws.FinalityKeys` | relayer/store/finalityStore.go:50-54 | two tx objects, if and only if they have one destination and number |
| `StoreLaws.KeyTexts` | relayer/relay.go:23-25 | the keys as texts |
| `StoreKeys.BlockKeyInjective` | relayer/store/blockStore.go:22-24 | block keys tell NIDs apart |
| `StoreKeys.KeysDisjoint` | relayer/relay.go:23-25 | no key of one store is a key of another |
| `StoreKeys.LastDash` | relayer/store/common.go:5-7 | a joined key splits at its last dash in one way |
| `StoreKeys.DecimalRoundTrip` | relayer/store/messageStore.go:98-98 | the number can be read back from its digits |
| `StoreKeys.ScanMeets` | relayer/store/messageStore.go:120-127 | a scan for a chain meets exactly the keys whose chain, dash and number begin with its NID |
| `StoreKeys.PrefixFreeMeets` | relayer/store/messageStore.go:123-127 | with prefix-free NIDs that is exactly the chain |
| `StoreKeys.ScanMeetsTooMuch` | relayer/store/messageStore.go:123-127 | without, it is not: the NID made of another NID, a dash and a number meets a message of that other chain |
| `StoreRefinement.OneDbIsThreeMaps` | relayer/relay.go:80-87 | any interleaving of the operations of the three stores on one database, with any failures and any NIDs, has the same outcomes as three independent maps |
| `StoreRefinement.OpRefines` | relayer/store/blockStore.go:27-43 | the same for one operation |
| `StoreRefinement.Stores.DoAll` | relayer/store/messageStore.go:93-118 | the stores as objects on one database, used in any way, answer as the maps do |
| `Store.MessageStore.StoreMessage` | relayer/store/messageStore.go:93-105 | StoreMessage writes one key |
| `Store.MessageStore.GetMessage` | relayer/store/messageStore.go:107-118 | GetMessage reads one key, by Src and Sn alone |
| `Store.MessageStore.DeleteMessage` | relayer/store/messageStore.go:170-172 | DeleteMessage removes one key |
| `StoreLaws.StoreMessageThenRead` | relayer/store/messageStore.go:93-118 | after StoreMessage, GetMessage finds the message under its source and number, and answers as before under all others; the other stores answer as before |
| `StoreLaws.DeleteMessageThenRead` | relayer/store/messageStore.go:170-172 | after DeleteMessage nothing is found under this source and number, and everything else is as before |
| `StoreLaws.StoreTxObjectThenRead` | relayer/store/finalityStore.go:45-78 | the same for tx objects, by destination and number |
| `StoreLaws.DeleteTxObjectThenRead` | relayer/store/finalityStore.go:134-137 | and for deleting them |
| `StoreLaws.StoreBlockThenRead` | relayer/store/blockStore.go:27-43 | and for heights, by chain |
| `Store.MessageStore.GetMessages` | relayer/store/messageStore.go:120-168 | the scan, its window, and the decoding of each value; nothing when the offset is beyond the end, a value does not decode, or the iterator breaks before the page is read |
| `Store.MessageStore.CountByKey` | relayer/store/messageStore.go:79-91 | the number of keys with a prefix, or an error when the iterator breaks |
| `Store.FinalityStore.StoreTxObject` | relayer/store/finalityStore.go:45-61 | StoreTxObject writes one key |
| `Store.FinalityStore.GetTxObject` | relayer/store/finalityStore.go:63-78 | GetTxObject reads one key |
| `Store.FinalityStore.DeleteTxObject` | relayer/store/finalityStore.go:134-137 | DeleteTxObject removes one key |
| `Store.FinalityStore.GetTxObjects` | relayer/store/finalityStore.go:80-132 | the same for tx objects |
| `Store.BlockStore.StoreBlock` | relayer/store/blockStore.go:27-33 | StoreBlock writes one key |
| `Store.BlockStore.GetLastStoredBlock` | relayer/store/blockStore.go:36-43 | GetLastStoredBlock reads it back, or fails |
| `Store.ReadPage` | relayer/store/messageStore.go:129-165 | the loops over the iterator return all elements, or [o, min(o + l, n)); they fail if and only if o > n or the iterator breaks before they are done |
| `Store.LevelDb.NewIterator` | relayer/lvldb/lvldb.go:48-50 | the keys with a prefix, in byte order |
| `Store.ScanUnique` | relayer/lvldb/lvldb.go:48-50 | there is one such list |
| `Store.BeforeIs` | relayer/lvldb/lvldb.go:48-50 | in byte order a proper prefix comes first, and otherwise the first byte that differs decides |
| `StoreScans.MessagesOfChain` | relayer/store/messageStore.go:120-141 | with prefix-free NIDs, GetMessages of a chain returns exactly its stored messages, in key order: a listing for the flush step; or an error, exactly when the iterator breaks |
| `StoreScans.TxObjectsOfChain` | relayer/store/finalityStore.go:80-105 | the same for tx objects |
| `StoreScans.ExactScan` | relayer/store/messageStore.go:120-127 | a scan is exact if and only if it meets no message of another chain |
| `StoreScans.PrefixFreeScan` | relayer/store/messageStore.go:120-127 | prefix-free NIDs are enough |
| `StoreScans.ScanSlots` | relayer/store/messageStore.go:120-127 | the keys of a scan are the keys of different slots, and of all that it meets |
| `StoreScans.Counts` | relayer/store/messageStore.go:71-91 | TotalCount is the number of stored messages, TotalCountByChain the number of those of the chain, unless the iterator breaks |
| `StoreScans.CountsAddUp` | relayer/store/messageStore.go:71-91 | the counts of all chains add up to the total |
| `StoreScans.WindowIs` | relayer/store/messageStore.go:143-160 | an offset from 2^63 on skips nothing; any other one fails beyond the end, and else leaves the elements behind it, as many as the limit |
| `StoreScans.PagesLeaveAHole` | relayer/store/messageStore.go:52-57 | an element is on some page with page * limit < 2^64 if and only if its index is below limit or at least 2 * limit |
| `StoreScans.WrappedPagesHaveTheHole` | relayer/store/messageStore.go:52-57 | the elements between are only on pages whose offset wraps around, and the first two of those have them all, for 2 <= limit < 2^61 |
| `StoreScans.LastPageIsEmpty` | relayer/store/messageStore.go:43-57 | the last page that CalculateTotalPages counts has no elements: it is empty when the total is a multiple of the limit, and an error otherwise |
| `StoreScans.PageReads` | relayer/store/messageStore.go:36-57 | reading a page returns exactly the elements that are on it |
| `IconOptions.RoundTrip` | relayer/chains/icon/client.go:502-533 | for every iteration order, the parser returns the printed map if and only if it is not empty, keys are non-empty without comma and equals sign, and values have no comma; an empty map comes back as nil |
| `IconOptions.ToHeaderValue` | relayer/chains/icon/client.go:502-513 | the loop that fills the slice prints the map in some order |
| `IconOptions.NewIconOptionsByHeader` | relayer/chains/icon/client.go:515-533 | the loop of the parser computes the parse function |
| `IconOptions.ParseReads` | relayer/chains/icon/client.go:515-533 | every non-empty part of any header sets its key, and the last one of a key wins |
| `IconOptions.ParseReadsOnly` | relayer/chains/icon/client.go:515-533 | and nothing else sets one |
| `IconOptions.SplitJoin` | relayer/chains/icon/client.go:512-518 | splitting a joined list at a separator that is in none of its parts returns the parts |
| `IconTypes.HexIntRoundTrip` | relayer/chains/icon/types/types.go:213-228 | HexInt.Value(NewHexInt(v)) = v for every int64; HexInt.Int reads back those of 32 bits and refuses the others |
| `IconTypes.BigIntAgrees` | relayer/chains/icon/types/types.go:230-238 | BigInt(NewHexInt(v)) = v for every v >= 0 of any length, and an error for every negative one |
| `IconTypes.SignBeforePrefix` | relayer/chains/icon/types/types.go:240-254 | a sign before the prefix is read by BigInt and refused by Value |
| `IconTypes.DecodeHexNumber` | relayer/chains/icon/types/types.go:240-254 | sign, prefix and padding |
| `IconTypes.ParseBigInt` | relayer/chains/icon/types/types.go:256-266 | the big-endian bytes with the sign are written into the number; on an error it stays as it is |
| `IconTypes.HexIntBigInt` | relayer/chains/icon/types/types.go:230-238 | HexInt.BigInt reads a new number from the text |
| `IconReads.BigIntReads` | relayer/chains/icon/types/types.go:230-266 | BigInt reads an optional minus, an optional prefix that is not alone, and any hex digits of either case, as their number |
| `IconReads.BigIntReadsOnly` | relayer/chains/icon/types/types.go:230-266 | and no other text |
| `IconReads.HexIntReads` | relayer/chains/icon/types/types.go:213-228 | Value and Int read an optional prefix, then a sign, then at least one digit, if the number fits in 64 or 32 bits |
| `IconReads.HexIntReadsOnly` | relayer/chains/icon/types/types.go:213-228 | and no other text |
| `IconTypes.HexBytesRoundTrip` | relayer/chains/icon/types/types.go:199-208 | HexBytes.Value(NewHexBytes(b)) = b |
| `IconReads.HexBytesReads` | relayer/chains/icon/types/types.go:199-204 | HexBytes.Value panics on one character, and reads exactly the empty text, and an even number of digits behind any two characters |
| `IconTypes.AddressRoundTrip` | relayer/chains/icon/types/types.go:275-306 | Address.Value(NewAddress(b)) = b if and only if b has 21 bytes and the first is 0 or 1 |
| `IconTypes.AddressValue` | relayer/chains/icon/types/types.go:275-292 | the decode into the buffer, with its errors and its panics |
| `IconReads.AddressReads` | relayer/chains/icon/types/types.go:275-292 | Address.Value reads exactly cx or hx with forty digits; it panics on less than two characters, and on a prefix with at least forty-two digits |
| `IconTypes.HexDecode` | relayer/chains/icon/types/types.go:284-287 | pairs of digits are decoded in place, until they do not fit |
| `IconReads.DecodeIntoReads` | relayer/chains/icon/types/types.go:284-287 | hex.Decode fills the buffer pair by pair, and panics at the first pair of digits too many |

## Left out

- RPC and websocket clients, signing, gas, keystores, MPT proofs, RLP and ABI bindings: their answers are arbitrary.
- JSON and LevelDB internals. GetMessages of all messages returns what it read so far together with the error of the iterator; the model returns the error alone.
- Contents of blocks in the listeners: messages, logs and events. Only heights are followed, so it is not shown which messages a block brings.
- Item-by-item interleaving of the ICON reconnect goroutine with the loop, and notifications that arrive while a batch is collected.
- Double callbacks of the ICON WaitForTxResult, and the EVM GenerateMessage that returns nil.
- Crash survival of cached messages: the cache is volatile, and only heights have a restart theorem.
- GetBlockReceipts of the EVM client: its retry budget is never used, and it need not end.
- MessageCache.Len, which counts the cached messages for the API, and the Set, Get and Del of Icon options, which are single map operations.
- ClearMessages of several keys at once: every caller passes one.
- The class `Relayer` holds the stores as maps; `StoreRefinement` and `StoreScans` prove that the stores on the database behave as these maps do, but no method of the class calls them.
- The error of StoreMessage and StoreTxObject for nil: no caller passes it.
- cmd/, configuration, the unregistered database commands, and everything under test/.
- RelayLife.FifteenTries: one direction; a run that breaks one of the conditions may still try the message at most fifteen times. `RelayEndless` and `RelayAttempts.AttemptsOfOneMessageUnbounded` have unbounded runs for each condition alone.
- Restart.NoGapAcrossRestarts: for heights below 2^64 - 10, and below 2^63 for ICON; so are the other theorems about sessions.
- Restart.NeverAHoleIff: for sessions that leave a nonzero saved height; `Restart.ForgettingLeavesGaps` has what happens after others.
- Relayer.Relayer.Serve: an event is not interrupted by another one; `RelaySpec` has every interleaving of the single steps.
