# FleetLM's leased work units, modelled and proved in Dafny

FleetLM cuts a batch of chat requests into work units. The orchestrator's store leases units to
nodes, takes them back when a node leaves or a lease runs out, and records the first verdict on
each. Node agents pull leases over a socket, decode a batch while the next one is already asked for,
and send one verdict per unit. A verifier plants canaries among the units and watches for replayed
answers, and metrics count what happened. This project models those parts and proves what they
promise together.

## How it is laid out

- **The store.** `Store.dfy` is the store as a state machine on values: create, lease, complete, fail,
  release, expire, cancel, and the client's readers. `BatchStore.dfy` is the store as the
  orchestrator keeps it: classes whose fields are updated in place, each method proved to take the
  step of `Store.dfy`, and of the counters and the verifier where those take part.
- **Every run of the store.** `Invariant.dfy` (what each operation keeps), `Fields.dfy` (what each
  does to the units' own fields, in no other vocabulary), `Leasing.dfy` (the leasing
  loop against the whole queue), `Verdicts.dfy` (a write-once register per unit; a finished batch is
  frozen), `Recovery.dfy` (one survivor finishes everything), `Ledger.dfy` and `Retries.dfy` (where
  every lease went, and how often a unit can be tried), `Erasure.dfy`, `Noninterference.dfy` and
  `Interference.dfy` (canaries and the client), `Planting.dfy` (where canaries land).
- **The fleet.** `Node.dfy` (a node's batch work on values), `Protocol.dfy` (store, nodes, both
  directions of every connection and the server's end of it, as one transition relation, overlapping
  connections included), `Link.dfy` (one connection), `Fleet.dfy` (what every step keeps),
  `Leases.dfy` (the promises), `Delivery.dfy` (a request is never stuck), `NonEvent.dfy` and
  `Takeover.dfy` (killing the whole fleet), `NodeAgent.dfy` and `NodesApi.dfy` (the agent's and the
  orchestrator's code, in place).
- **Checking and counting.** `Verification.dfy`, `Oversight.dfy`, `Records.dfy`, `Verifiers.dfy`,
  `Counters.dfy`, `Metrics.dfy`. **Decoding:** `Engine.dfy`. **Vocabulary:** `Sequences.dfy`, `Text.dfy`.

## How the source is read

- Every critical section of the store holds its lock without awaiting anything else, so each method
  is one atomic step, and the part of `complete` after the lock follows without a pause.
- Clocks are parameters, and an operation reads its clock once. Identifiers are opaque numbers that
  the caller of `Create` supplies fresh; the source draws them at random. `order` is the insertion
  order of the dictionary `units`, which iteration follows.
- A text that may be `None` is `""` when it is, because the code only asks whether it is truthy.
- `max_unit_attempts` is any number from 1 on, and `lease_duration_sec` any real.
- A text stands for its own SHA-256, and the sequence matcher is a parameter `similarity`. The
  calls into a model are functions that may fail. Times, rates and scores are reals.
- The orchestrator always runs with metrics (`orchestrator/main.py:91-97`), and with or without a verifier.

## Where the code does not do what its words say

- *Retried to `max_unit_attempts`, then dead-lettered* (`README.md:81`): only failure reports look at
  the limit. It holds exactly as long as no departure and no reaper takes a unit back that has used up
  its attempts (`Ledger.LimitHoldsExactly`, and `Ledger.StepStaysWithin` for one step).
  `Ledger.AttemptsBounded` has the bound that always holds, and `Retries.BoundIsReached` reaches it for
  every number of losses.
- *A raising item fails alone* (`node_agent/engine.py:94`): an exception with an empty message reaches
  the client as an answer with an empty text. `NodeAgent.RaisingItemFailsUnlessSilent` says exactly when
  the node reports it as a result, and `NodesApi.RaisedItemIsRead` what the client then reads.
- *Their results never reach the client* (`README.md:115`), so a client should not be able to tell that
  there are canaries: true of every run in which no failure report requeues a unit that is already
  waiting. `fail` does not look at who holds the lease, and a report that comes after the lease ran out
  queues the unit twice. `Interference.RudeRunInterferes` has a run of that kind, for every limit above
  one, that no store without the canary can follow: whatever the size of each of its leases, the client
  reads other counts after some event.
- *Spread through the queue so they cannot be spotted by position* (`README.md:115`): in a batch of `n`
  requests the first `n / 2` places never hold a canary and the next one always does
  (`Planting.FirstHalfIsReal`). However many canaries there are, the first two thirds hold one at most,
  the first three quarters two, and so on (`Planting.FrontSeesFew`). Two canaries stand side by side in
  batches of 1, 2, 3, 4, 6, 7 and 10 requests, and swapped in a batch of 4 (`Planting.TwoCanaries`).
- *Shaped identically to real work* (`README.md:115`): a canary always has a limit of 256 tokens and
  temperature zero, so it looks like a client's unit exactly when the client asks for just that
  (`Oversight.CanaryLooksLike`).
- *Cycled so all of them get used* (`orchestrator/verification.py:164`): the cycle starts over with each
  batch, so batches that get fewer canaries than are configured never use the rest
  (`Verification.UsedIffReached`, `Verification.AllUsedIffEnough`).

## Model

| member | source | states |
|---|---|---|
| Invariant.Reachable | orchestrator/batch.py:113-376 | in every state any run of the store reaches: every waiting unit is in the queue, queue entries are known units, a batch's lists and its units agree, a cancelled batch has no unit or canary outstanding, a batch with units is in progress exactly while one of them has no verdict, and a leased unit has a node |
| Invariant.StepKeeps | orchestrator/batch.py:130-376 | each operation keeps all of that |
| Invariant.CreateKeeps | orchestrator/batch.py:130-175 | so does a submission, canaries and all |
| Fields.RequestFields | orchestrator/batch.py:134-150 | unit k of a submission asks request k: its messages, limit and temperature, its model or else the batch's, index k; it waits, and no attempt was made |
| Fields.CanaryFields | orchestrator/batch.py:152-170 | canary k is filed behind the requests, its prompt as one user message, with 256 tokens at temperature zero and its model or else the batch's |
| Fields.SubmissionFields | orchestrator/batch.py:141-174 | old units and other batches stay as they are, and the queue grows at its end by exactly the new units, each once |
| Invariant.PlantedPermutes | orchestrator/batch.py:152-174 | planting loses and doubles nothing: the queue is a permutation of real units and canaries |
| Invariant.LeaseLosesNothing | orchestrator/batch.py:209-230 | the entries a lease throws away are never work: a waiting unit of a live batch that is queued and not granted stays queued |
| Invariant.CompleteKeeps | orchestrator/batch.py:246-268 | recording a result keeps the invariant, the batch's state exact included |
| Invariant.FailKeeps | orchestrator/batch.py:285-304 | so does a failure report, from whomever it comes and in whatever state the unit is |
| Invariant.ReclaimKeeps | orchestrator/batch.py:310-339 | so does taking any set of leases back |
| Invariant.CancelKeeps | orchestrator/batch.py:362-376 | so does a cancellation, and other batches' states stay exact |
| Planting.PlantIndexInside | orchestrator/batch.py:171-172 | the clamp to the queue's length never changes the index; it is at least 1, and with two or more real units never past the last one |
| Planting.RealUnitsKeepOrder | orchestrator/batch.py:167-172 | the real units keep their order |
| Planting.EndsAreReal | orchestrator/batch.py:163-172 | with two or more real units the queue starts with the first and ends with the last of them, however many canaries there are |
| Planting.FrontSeesFew | orchestrator/batch.py:163-172 | for every j, the first n(j+1)/(j+2) places of a queue with n requests are as if only the first j canaries had been planted, however many there are |
| Planting.FirstHalfIsReal | orchestrator/batch.py:163-172 | with two or more requests and any canaries, the first half of the requests leads the queue untouched, and right behind it stands a canary |
| Planting.TwoCanaries | orchestrator/batch.py:171-172 | where the first and the second of two canaries stand; side by side if and only if there are 1, 2, 3, 4, 6, 7 or 10 requests, and swapped if and only if there are 4 |
| Planting.AdjacentAndSwapped | orchestrator/batch.py:171-172 | the queue of four requests and two canaries, written out, as a witness |
| Leasing.GrantedAreFirst | orchestrator/batch.py:207-230 | a lease grants the first `count` distinct waiting units the node's model allows, in queue order, or all there are |
| Fields.LeaseFields | orchestrator/batch.py:207-230 | whoever is granted was queued, PENDING, of a batch that is not CANCELLED, and of the node's model unless one of the two names none; it is leased to that node until `now` plus the lease duration with one more attempt, and no other unit changes |
| Fields.LeaseLeavesNone | orchestrator/batch.py:209-224 | when fewer come back than were asked for, every queued unit with those fields is among them |
| Fields.FirstComeFirstServed | orchestrator/batch.py:209-229 | a unit with those fields that stands in the queue in front of one that was granted was granted too |
| Leasing.ReadToIsFirst | orchestrator/batch.py:209-212 | the loop stops at the first place where it holds enough, or at the end |
| Leasing.ShortOnlyWhenDry | orchestrator/batch.py:207-230 | a node that got less than it asked for left nothing behind that it could have taken |
| Leasing.LiveAfterLease | orchestrator/batch.py:208-230 | the waiting work loses the granted units and nothing else, and what remains keeps its order, skipped units included |
| Verdicts.StepRefinesRegister | orchestrator/batch.py:193-376 | each operation is one step of a write-once register per unit: only the deciding events write, only when nothing is written, and they write just their verdict |
| Verdicts.StepKeepsIdentity | orchestrator/batch.py:193-376 | what identifies a unit to its client never changes |
| Verdicts.FirstVerdictWins | orchestrator/batch.py:245-254 | the first verdict of a run is what every later state of it holds |
| Fields.CompleteFields | orchestrator/batch.py:246-263 | a result for a unit without a verdict writes its answer, tokens, node and model and ends its lease; any other result changes nothing |
| Fields.FailFields | orchestrator/batch.py:285-304 | a failure report dead-letters a unit exactly when its attempts have reached the limit, and otherwise frees it and queues it last; for a decided or unknown unit it does nothing |
| Fields.VerdictCloses | orchestrator/batch.py:347-360 | either verdict completes the unit's batch, and no other, exactly when it was in progress and every listed unit of the client's is COMPLETE or FAILED |
| Fields.CancelFields | orchestrator/batch.py:362-376 | exactly the PENDING and LEASED units of a batch in progress fail, canaries too, and nothing else changes; a batch that is over is left alone |
| Verdicts.LateVerdictsAreIgnored | orchestrator/batch.py:248-254 | results and failures for decided or unknown units can be struck from any run without changing where it ends |
| Verdicts.OverIsFrozen | orchestrator/batch.py:347-419 | once a batch has left IN_PROGRESS its state, counts, results and usage are the same in every later state |
| Verdicts.ResultsInSubmissionOrder | orchestrator/batch.py:398-403 | `results` has one record for each submitted unit, in order of submission, and no canary |
| Verdicts.CountsAddUp | orchestrator/batch.py:381-396 | the counts add up to the total, and show work left exactly while the batch is in progress |
| Fields.CountFields | orchestrator/batch.py:381-396 | each count is the number of places on the client's list whose unit is in that very state |
| Fields.CountsMove | orchestrator/batch.py:246-268 | a counted result moves one unit of its batch to the completed ones from where it was, and no other count changes |
| Fields.UsageGrows | orchestrator/batch.py:405-419 | and adds its prompt tokens to the batch's prompt tokens and its completion tokens to the completion tokens |
| Fields.ResultFields | orchestrator/batch.py:72-96 | a line is the unit's answer when it is COMPLETE, and otherwise how far the unit has come, with its error or `unknown error` |
| Verdicts.FirstVerdictIsRead | orchestrator/batch.py:72-96 | after the event that decides a client's unit, and after whatever follows, the line at the unit's place has that event's text, tokens and model, or its error, and the attempts made by then |
| Verdicts.ReadingsAgree | orchestrator/batch.py:381-419 | what the client reads of a batch depends on its submitted units alone |
| Recovery.DepartureReturnsItsLeases | orchestrator/batch.py:310-325 | a departure takes back exactly the units leased to that node, each once and at the end of the queue, PENDING, with no node and no lease end, and changes no other |
| Recovery.ReaperReturnsTheOverdue | orchestrator/batch.py:327-343 | the reaper does that to exactly the leases with `now` past their end, whoever holds them; a lease still running is left alone, and its place too |
| Fields.LeaseRunsItsTime | orchestrator/batch.py:226-339 | from grant to reaper: a unit taken at `t` is left alone by every pass up to `t` plus the lease duration, whatever happens in between that is not about this unit, its node or its batch, and returned by every later pass |
| Recovery.LateReapReturnsAll | orchestrator/batch.py:327-339 | a reaper pass after every lease's end leaves no lease and touches no verdict |
| Recovery.NoLeaseAfterDepartures | orchestrator/batch.py:310-320 | the same once all the nodes that hold a lease have departed |
| Recovery.RoundProgress | orchestrator/batch.py:193-283 | a round of leasing some units and completing each settles at least one while any waits, and leaves no lease |
| Recovery.SurvivorFinishes | orchestrator/batch.py:193-360 | as many rounds as there are waiting units leave nothing outstanding and no batch in progress |
| Recovery.FromAnyReachableState | orchestrator/batch.py:191-343 | from any reachable state, once the leases are back, every unit without a verdict gets the survivor's answer and every other keeps its own |
| NonEvent.FleetIsStoreRun | orchestrator/api/nodes.py:100-175 | whatever the fleet does, its store has been through a run of the store's own operations |
| NonEvent.AllGoneNoLease | orchestrator/api/nodes.py:102-108 | when the server has cleared every connection away no unit is leased |
| NonEvent.LosingEveryNodeIsANonEvent | README.md:17 | once every connection of a fleet is gone, one survivor on the store finishes every undecided unit in at most as many rounds as units wait, and no verdict is touched |
| Takeover.LosingTheFleetIsANonEvent | README.md:17 | from every state the fleet can reach, steps that only end connections leave no lease and touch no verdict, and further steps of one newcomer on its own connection answer every undecided unit and leave every other as it was |
| Takeover.EndConns | orchestrator/api/nodes.py:100-108 | from every such state there are steps that end the connections one by one and do nothing to the store but give leases back |
| Takeover.Batch | node_agent/__main__.py:279-308 | the newcomer hears, starts, asks for more and only then reports: its batch is answered, and the next one, if work is left, is on its way |
| Ledger.EveryGrantIsAccountedFor | orchestrator/batch.py:226-341 | over every run: attempts made == units leased now + `leases_reclaimed` + leases ended by a verdict or a cancellation |
| Ledger.LeasesAreConserved | orchestrator/batch.py:226-376 | the same between any two states of a run |
| Ledger.StepCountsReclaims | orchestrator/batch.py:321-324 | `leases_reclaimed` grows by exactly the leases a step takes back |
| Ledger.AttemptsBounded | orchestrator/batch.py:290-304 | a unit's attempts never exceed the limit plus the times its lease was taken back |
| Ledger.StepStaysWithin | orchestrator/batch.py:285-341 | a step leaves a unit within its limit if and only if it does not take it back with all its attempts used up |
| Ledger.LimitHoldsExactly | orchestrator/batch.py:285-341 | a unit keeps within its limit in every state of a run if and only if no step of the run does that |
| Ledger.OnlyTheOverdrawnExceed | orchestrator/batch.py:285-341 | a unit with more attempts than the limit was taken back that way |
| Ledger.WindowsHoldTheLatest | orchestrator/metrics.py:111-146 | after every run both windows hold just the samples of the latest 10,000 counted answers, in order |
| Ledger.LossesAddUp | orchestrator/metrics.py:175-176 | the units' losses add up to `leases_reclaimed` |
| Ledger.TotalGrantsBounded | orchestrator/batch.py:290-304 | a run grants at most the limit for each unit plus `leases_reclaimed` |
| Ledger.CountersAgree | orchestrator/batch.py:266-359 | in every reachable state `unit_retries` is the attempts beyond the first over COMPLETE units, `batches_completed` the number of COMPLETED batches, `batches_created` the number of batches |
| Retries.BoundIsReached | orchestrator/batch.py:285-341 | for every number of losses some run takes a unit to the limit plus that many attempts |
| Erasure.ClientGrants | orchestrator/batch.py:207-230 | without the canaries, a lease of as many units as the client's share of a grant grants just that share |
| Noninterference.StepErases | orchestrator/batch.py:130-376 | each operation of a store with canaries is matched by what is left of it in a store without |
| Noninterference.CanaryNeverFinishes | orchestrator/batch.py:352-356 | no verdict on a canary ever ends a batch |
| Noninterference.PoliteIsExact | orchestrator/batch.py:289-304 | a step keeps each waiting client unit queued once and each leased one out of the queue if and only if it is not a failure report that requeues a waiting one |
| Noninterference.CanariesDoNotInterfere | orchestrator/batch.py:107-110 | leave the canaries and their events out of any run without such a report: the rest is a run of an unverified store after which the client reads the same state, results, counts and usage of every batch |
| Interference.RudeRunInterferes | orchestrator/batch.py:285-304 | a run with a failure report after an expiry such that, whatever the size of each lease in a store without the canary, the client's counts differ after some event |
| BatchStore.BatchStore.CreateBatch | orchestrator/batch.py:130-183 | takes the step of a submission, registers each canary with the verifier, and counts one batch; unit k carries the fields of request k, and canary k those of canary k |
| BatchStore.BatchStore.AddRequests | orchestrator/batch.py:134-150 | the loop over the requests files them all, in order |
| BatchStore.BatchStore.AddCanaries | orchestrator/batch.py:152-172 | the loop over the canaries files, registers and plants them all |
| BatchStore.BatchStore.Insert | orchestrator/batch.py:171-172 | one insertion lands at the model's index |
| BatchStore.BatchStore.Offer | orchestrator/batch.py:213-229 | what becomes of one queue entry: granted, left for another node's model, or dropped as stale |
| BatchStore.BatchStore.Lease | orchestrator/batch.py:193-233 | grants what the specification grants and leaves the queue it says; on the fields, every unit it returns was queued and PENDING in a batch not CANCELLED, with no model, or the node's, or for a node that names none, and is now leased to that node for the lease duration; if it returns fewer than asked for, it returns every such unit |
| BatchStore.BatchStore.MaybeFinishBatch | orchestrator/batch.py:347-360 | a batch in progress with nothing outstanding is completed and counted, and no other |
| BatchStore.BatchStore.RecordResult | orchestrator/batch.py:246-268 | the locked part: whether the result counts, what it does to the store, and what was measured before it: the wait from creation to lease, the time since the lease, neither ever negative, and the attempts beyond the first |
| BatchStore.BatchStore.Complete | orchestrator/batch.py:235-283 | store, counters and verifier each take their step for this result, and none for a late one; the verifier judges the result's own text beside all that its unit asked |
| BatchStore.BatchStore.Fail | orchestrator/batch.py:285-308 | requeued while attempts remain, dead-lettered with its error after, and the batch looked at only then |
| BatchStore.BatchStore.ReleaseNode | orchestrator/batch.py:310-325 | takes the step of a departure, and counts and returns the leases it took back; on the fields, exactly the units leased to that node are PENDING again, with no node |
| BatchStore.BatchStore.ExpireLeases | orchestrator/batch.py:327-343 | takes the step of the reaper, and counts and returns the leases it took back; on the fields, exactly the units LEASED with `now` past their end are PENDING again, with no node |
| BatchStore.BatchStore.CancelBatch | orchestrator/batch.py:362-376 | abandons what is outstanding of a batch in progress, canaries too, and reports whether it did |
| BatchStore.BatchStore.GetCounts | orchestrator/batch.py:381-396 | the tally loop computes the counts of the client's units |
| BatchStore.BatchStore.GetResults | orchestrator/batch.py:398-403 | computes the sorted records |
| BatchStore.BatchStore.GetUsage | orchestrator/batch.py:405-419 | sums the tokens of answered units alone |
| Leases.NextSound | node_agent/__main__.py:101-377 | every step of node, wire or server keeps the fleet's invariant |
| Leases.ReachableSound | orchestrator/api/nodes.py:85-108 | so it holds in every state the fleet reaches |
| Leases.NoOrphanLease | orchestrator/api/nodes.py:100-108 | a unit leased to a node is in an assignment on its way, in the node's queue, in its batch or in a verdict not read yet, on a connection of that node the server has not cleared away; or that connection is lost at the node's end and its release is still to come |
| Leases.LeaseBound | node_agent/__main__.py:260-271 | a node is never leased more than twice its batch size for each of its connections the server has not cleared away, prefetch and messages in transit included |
| Leases.LeaseBoundOneConnection | node_agent/__main__.py:252-257 | with one such connection that is twice the batch size |
| Leases.BacklogBound | node_agent/__main__.py:263-287 | the backlog and the batch being decoded each stay within the batch size |
| Leases.NothingLeftBehind | orchestrator/api/nodes.py:102-108 | when a node's connections are cleared away nothing is leased to it |
| Leases.FlagIsExact | node_agent/__main__.py:166-171 | `work_request_inflight` is set exactly while one request or its assignment is under way, and there is never a second, across disconnects and the cancelled worker's late request |
| Delivery.WaitOnlyFalls | node_agent/__main__.py:258-271 | while both ends are open and the flag is set, no step of anyone's makes the request wait longer, and each sending, reading or hearing it waits for brings it nearer |
| Delivery.FlagNeverSticks | node_agent/__main__.py:258-271 | in every run in which the flag stays set with both ends open, fewer of those steps are taken than there were to go |
| Delivery.PushHelps | node_agent/__main__.py:258-271 | such a step is always possible, and leaves both ends open |
| Delivery.FlagClears | node_agent/__main__.py:167-169 | as many of them as there are to go clear the flag |
| Fleet.AskSound | node_agent/__main__.py:258-271 | asking for work at any moment keeps the fleet's invariant |
| Fleet.StartSound | node_agent/__main__.py:282-292 | so does starting a batch and asking before it is decoded |
| Fleet.ReportSound | node_agent/__main__.py:293-308 | so does reporting a batch, however it ended |
| Fleet.HearSound | node_agent/__main__.py:166-172 | so does an assignment that arrives |
| Fleet.DropSound | node_agent/__main__.py:123-126 | so does losing the connection, with all that was queued, decoding or unsent |
| Fleet.ConnectSound | node_agent/__main__.py:101-117 | so does reconnecting under the same id, even before the server noticed |
| Fleet.ServeSound | orchestrator/api/nodes.py:147-159 | so does serving a request, even when the answer cannot be sent |
| Fleet.RecordSound | orchestrator/api/nodes.py:161-175 | so does reading a verdict, stale or not |
| Fleet.DepartSound | orchestrator/api/nodes.py:102-108 | so does releasing a departed connection's node, even when the node is back |
| Link.ServeOk | orchestrator/api/nodes.py:147-159 | an answer to a request keeps a connection's load within twice the batch size |
| Link.FinishOk | node_agent/__main__.py:293-308 | reporting a batch keeps a connection's bounds, and every unit stays accounted for |
| Link.BeginOk | node_agent/__main__.py:282-292 | so does starting one |
| Node.OneVerdictEach | node_agent/__main__.py:293-357 | each batch yields exactly one report per unit, in unit order: the exception's words, the miscount's words, the item's own error if it has words, and otherwise its text, tokens and model |
| NodeAgent.NodeAgent.RequestWorkIfRoom | node_agent/__main__.py:251-271 | asks once for the room in the backlog when a model is loaded, no request is out and there is room, and otherwise does nothing |
| NodeAgent.NodeAgent.OnAssignment | node_agent/__main__.py:166-174 | every assignment clears the flag and joins the backlog, an empty one too |
| NodeAgent.NodeAgent.BeginBatch | node_agent/__main__.py:281-292 | takes as many as there are up to the batch size from the front of the backlog, at least one, leaves the rest, and then asks for the room that made |
| NodeAgent.NodeAgent.CheckOutputs | node_agent/__main__.py:322-325 | whatever the engine, a batch returns if and only if the engine did and with one output for each unit; the error says which went wrong |
| NodeAgent.NodeAgent.RunUnits | node_agent/__main__.py:310-329 | on the MLX engine every batch returns, and output i is a generation from the messages, limit and temperature of unit i alone, or, with two units or more on an engine that batches, a slot of a decode at that temperature in which unit i's prompt and limit were handed over |
| NodeAgent.NodeAgent.ReportUnits | node_agent/__main__.py:331-358 | puts the model's verdicts of a batch that returned into the outbox |
| NodeAgent.NodeAgent.FinishBatch | node_agent/__main__.py:293-308 | however the batch ended, the outbox grows by exactly one report for each of its units, with what is to be said of it, in their order, and then by one request at most; the units are counted off |
| NodeAgent.NodeAgent.Disconnect | node_agent/__main__.py:367-375 | flag, outbox and backlog start over |
| NodeAgent.NodeAgent.CancelledWorkerEnds | node_agent/__main__.py:306-308 | a cancelled worker's last act counts its batch off and asks once more, into the fresh outbox |
| NodeAgent.RaisingItemFailsUnlessSilent | node_agent/__main__.py:335-345 | an item that raised is reported as failed if and only if its exception's message is not empty |
| NodeAgent.AnsweringItemSucceeds | node_agent/__main__.py:346-358 | an item that did not raise is reported as a result with its text |
| NodesApi.HandleWorkRequest | orchestrator/api/nodes.py:147-159 | leases what the request has room for, at most 64, and sends just those units, each with its own messages, limit and temperature, leased to that node and fit for its model; when it sends fewer, no unit fit for that node still waits in the queue |
| NodesApi.HandleVerdict | orchestrator/api/nodes.py:161-175 | store, counters and verifier take the step of that verdict |
| NodesApi.RaisedItemIsRead | node_agent/__main__.py:335-345 | an item that raised leaves its client an empty answer for good if its exception says nothing, and otherwise this verdict answers nothing |
| NodesApi.HandleDisconnect | orchestrator/api/nodes.py:102-106 | store and counters take the step of a departure |
| Engine.GroupsPartition | node_agent/engine.py:177-179 | each item is in exactly one group, its temperature's, and there exactly once |
| Engine.SlotHandsOver | node_agent/engine.py:194-199 | the prompt and the limit in a slot are those of the item in that slot |
| Engine.BatchingPreservesMeaning | node_agent/engine.py:159-211 | if batched decoding is slotwise equal to single generation, grouping, scattering and falling back change no text and no failure |
| Engine.MlxEngine.GenerateOne | node_agent/engine.py:93-105 | an item comes back with its text or with its exception, and with the last counts reported when it reported none |
| Engine.MlxEngine.Regroup | node_agent/engine.py:177-179 | the loop builds just those groups, one for each temperature that occurs and none for any other |
| Engine.MlxEngine.DecodeGroup | node_agent/engine.py:192-211 | writes each slot's output to its item, touches no other group, and says whether it raised |
| Engine.MlxEngine.Redo | node_agent/engine.py:185-189 | the fallback overwrites the whole group, partial writes included, and nothing else |
| Engine.MlxEngine.GenerateBatch | node_agent/engine.py:159-190 | output i belongs to item i: its slot of its group's decode, or a run of its own when that group failed |
| Verification.CanaryCountInRange | orchestrator/verification.py:153-161 | no canary when off or for an empty batch, and otherwise at least one and at most one for each real unit |
| Verification.CanaryCountIsNearest | orchestrator/verification.py:153-161 | for every rate and batch, the count is the whole number nearest to that share of the batch, the even one of two, and one at least |
| Verification.SelectGoesRound | orchestrator/verification.py:163-166 | selection goes round the list in its order, however often the count needs |
| Verification.UsedIffReached | orchestrator/verification.py:163-166 | a canary is planted in a batch if and only if it stands among the first ones of the list, as many as the batch's count |
| Verification.AllUsedIffEnough | orchestrator/verification.py:163-166 | of canaries that are all different, all are planted if and only if the count is no less than their number |
| Verification.CheckBalances | orchestrator/verification.py:176-202 | a check is on exactly one node's record, with its reason when it failed |
| Verification.PassesExactly | orchestrator/verification.py:41-54 | the expected text up to white space passes if and only if the threshold is one at most, an empty answer to an expectation (or the reverse) if and only if it is zero at most, and any other if and only if the similarity of the normalised texts reaches the threshold |
| Text.NormalisedIsItsWords | orchestrator/verification.py:49-49 | two texts are the same normalised if and only if they have the same words in the same order, and normalising once is enough |
| Text.StripTrims | orchestrator/verification.py:217-217 | what is measured is the text without the white space at both ends, and all of that is gone |
| Verification.ReplayBalances | orchestrator/verification.py:204-234 | so is a caught replay |
| Verification.NoteReplayIndexes | orchestrator/verification.py:219-226 | the index of first answers flags an answer if and only if the full history does: the first long answer with its normalised text was to another normalised question |
| Verification.HonestNeverFlagged | orchestrator/verification.py:205-215 | answers from one function that tells long answers apart are never flagged |
| Oversight.VerifierAgrees | orchestrator/verification.py:176-234 | after every run `checks_run` is the number of planted units COMPLETE, records add up to checks and replays, failures and their reasons agree, and `replays_caught` is what the history shows |
| Oversight.CanaryAsks | orchestrator/verification.py:75-82 | a planted unit asks its canary's own question |
| Oversight.AskedJoins | orchestrator/batch.py:265-267 | what a unit asks is the contents of its messages in order, joined by single spaces |
| Oversight.CanaryLooksLike | orchestrator/verification.py:75-82 | in every reachable state a node sees the same of a canary as of another unit if and only if that unit asks the canary's prompt as one user message, with 256 tokens at temperature zero |
| Oversight.HonestFleetHasNoSuspects | orchestrator/verification.py:236-239 | an honest fleet has no suspects after any run, whatever its retries and duplicates |
| Records.SuspectsAreTheCaught | orchestrator/verification.py:238-239 | after any run a node is a suspect if and only if one of its counted answers failed a canary or repeated an earlier answer to another question, and its record counts just those |
| Records.JudgeRecords | orchestrator/verification.py:182-234 | judging an answer changes its node's record alone, by what it deserves |
| Verifiers.Verifier.Check | orchestrator/verification.py:176-202 | judges planted units only; on the fields, a check passes if and only if the agreement of the normalised texts reaches the threshold, the node's `passed` grows then and only then, and otherwise its failures and the total grow |
| Verifiers.Verifier.NoteReplay | orchestrator/verification.py:204-234 | flags exactly a text of 40 characters or more whose normalised form was first seen for another normalised question, remembers it if it is new, and counts the failure against the node |
| Verifiers.Verifier.Suspects | orchestrator/verification.py:238-239 | lists exactly the nodes with a failure on record, in the order they were first judged |
| Verifiers.Verifier.RecordOf | orchestrator/verification.py:185-185 | a node's record, entered empty when there is none |
| Metrics.RankIsCeiling | orchestrator/metrics.py:33-33 | the negated floor is a ceiling: the rank is the least that covers that share of the samples |
| Metrics.PercentileIsNearestRank | orchestrator/metrics.py:24-34 | the value is a sample, at least `pct` percent of the samples are no larger, and fewer than `pct` percent are smaller |
| Metrics.PercentileMonotone | orchestrator/metrics.py:24-34 | a higher percentage never gives a smaller value |
| Metrics.SummaryOrdered | orchestrator/metrics.py:188-196 | the summary has the 50th, 90th and 99th percentile and the largest sample, and they are in order |

## Left out

- Noninterference.CanariesDoNotInterfere: goes one way. A run may requeue a waiting unit and still not show it to the client; `Noninterference.PoliteIsExact` has the exact guard for the queue, and `Interference.RudeRunInterferes` a run that shows it.
- Interference.RudeRunInterferes: supposes a limit above one. With a limit of one, a unit that was ever leased has no attempt left, and no report on it can requeue it.
- Leases.LeaseBoundOneConnection: two overlapping connections of one id can hold twice as much; `Leases.LeaseBound` states that case.
- Delivery.FlagNeverSticks: that the steps a request waits for are taken in the end is the event loop's fairness, which is not modelled.
- Engine.BatchingPreservesMeaning: compares texts and failures, not token counts, which a batched decode takes by encoding its texts again.
- Engine.MlxEngine.GenerateBatch: leaves open which earlier counts an item that reported none comes back with.
- BatchStore.BatchStore.Fail: the count of failed units per node is not modelled.
- BatchStore.BatchStore.CreateBatch: takes fresh identifiers as given; two random ones that collide are not modelled.
- NodesApi.HandleWorkRequest: the node's model is a parameter; the lookup in the registry is not modelled, and in the fleet's steps any model may be named.
- Node metrics per machine (`NodeMetrics`, departed snapshots, throughput rates) and the rounding of reported numbers.
- `BatchStore.summary` and `pending_count`, sessions and streaming, registry, router and heartbeats, the join-token check and the registration handshake, HTTP routes and JSON, the command line, the benchmark and the dashboard.
- Engines other than `MlxEngine`, and everything inside a model: loading, sampling (a generation is a function of its item) and thread pools.
- The verifier's failure messages are structured values, the verdict dictionary of `check` is reduced to whether it passed, and `overhead_pct` and trust ratios are left out.
- The request limits of the batch API; a batch without requests is allowed here and never completes, as in the store itself.
- Wall-clock order between different operations' clocks is not assumed anywhere.
