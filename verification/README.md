# mev-share-rs: a verified model

A Dafny model of the stateful parts of mev-share-rs, with proofs about all their runs:

- the bundle-simulation scheduler (`crates/mev-share-backend/src/service.rs`): two priority
  queues, a bounded set of in-flight simulations, a block clock, retries, a mailbox and
  event listeners, driven by one poll loop;
- the reconnecting SSE client stream (`crates/mev-share-sse/src/client.rs`);
- the block window and the privacy-hint codec (`crates/mev-share-rpc-api/src/types.rs`).

## How it is built

`Machine` is the scheduler as a transition system. A history is a sequence of actions: a
handle sends, a listener hangs up, the service handles a message, a simulation finishes with
any outcome, an outdated request is dropped, an eligible request is started. `Legal` says each
action was possible where it happened and `Run` gives the state reached. The theorems in
`Ledgers`, `Bounds`, `Accounting`, `Progress`, `Windows`, `Listening`, `Reports`, `Fairness` and
`Limits` hold for every legal history, every configuration and every initial block.

`Rounds` says which of these histories a poll loop can have: messages, then completions, then
one selection at one instant until it has nothing left to do. It shows what holds whenever a
round is over. `Witnesses` builds histories of that kind which reach the bounds; together with
the theorems about all histories they give exact conditions.

`Service.BundleSimulatorService` is the service as written: the fields, the loops and the
removals by position. Each method is proved to perform actions of the machine, and the poll loop
to have histories of whole rounds (`Settled`), so the theorems speak about its fields
(`HoldsAlways` and `HoldsOfWindows` say so). The environment is a script that `Poll` is given:
for each round, how many messages the channel hands over before it answers pending, which
simulations the in-flight set hands over and how each ended, and what the clock reads. Every
script is allowed. A message sent by another thread during a poll is one already in the mailbox
that the channel does not hand over yet. `Polls` says what a poll does with a script, and that
this is determined: the scheduler makes no choice of its own.

`Reports` states every event of a run from the actions alone, and with that what each listener's
results are.

`Selection` is what one selection means: a single sweep over both queues, characterised by the
point where it stops. The service reaches the same answer by scanning again from the front
after every removal.

`EventStreams` runs the stream against a network script (what each connection yields, how each
further connection attempt ends); what is delivered, the answer of every single poll and the
attempts made are functions of the script. `PrivacyHints` is the codec.

Three conventions. A request's `id` names one submission and is read by no code; `NoTwins`
assumes that accepted submissions can be told apart by it. `history`, `dials`, `resetAt` and
the `Ledger` are history that the program does not store; `running` says
whether the service object still exists. Block numbers are 64-bit and
`current_block + 1` wraps, as in a release build.

## Where the code and its documentation differ

The model follows the code.

- The queue limits are documented as maxima, but a rescheduled request is pushed without a
  check. `Witnesses.WhenLimitsAreExceeded` says for which configurations a limit can be exceeded,
  `Bounds.AlwaysFits` by how much, `Witnesses.OvershootAttained` that this much is reached, and
  `Service.BundleSimulatorService.PollOnce` that the high queue is back within its limit after
  every round as long as block numbers do not go down; `Witnesses.WhenHighLimitNeedsClimbing`
  shows this needs the proviso. The normal queue can stay over its limit when a round is over:
  `Witnesses.WhenNormalIsLeftOver` says for which configurations.
- `Inclusion.block` is documented as the first block the bundle is valid for, but a request
  starts only when the next block is strictly above it. `Windows.EligibleInsideWindow` says
  when the code agrees with the documented window, `Windows.FirstBlockIsMissed` gives a bundle
  for which it does not, and `Witnesses.WhenBundlesStart` says which bundles are started on any
  run at all: a bundle whose last block is its first is not.
- `ClearQueue` is documented as clearing all ongoing jobs, but it empties only the queues.
  `Ledgers.ClearSparesFlight` says that nothing is left ongoing if and only if nothing was in
  flight, and when a simulation in flight gets back into a queue afterwards;
  `Ledgers.ClearedForGood` says that what was cleared never shows up again.
- `BlockNumberUpdated.current` is documented as the new block number but carries the replaced
  one: `Windows.CurrentIsReplaced` says so of every event of every run, and
  `Windows.UpdateReportsOldBlock` of each update, with the condition for there being an event.
- `with_max_retries` is documented as the maximum number of retries of the SSE client, but an
  automatic reconnect counts on a copy that is thrown away. `EventStreams.WhenMaxRetriesBounds`
  says exactly when the maximum bounds the automatic attempts.
- In section 9.2 of the WHATWG HTML Living Standard a `retry` field only sets the reconnection
  time; this client reconnects on receiving it.

## Model

| member | source | states |
|---|---|---|
| Selection.SweepMeaning | crates/mev-share-backend/src/service.rs:266-286 | a selection takes the first eligible requests up to its capacity, drops exactly the outdated ones in front of the last one taken, and keeps all others in order |
| Selection.CutExists | crates/mev-share-backend/src/service.rs:266-286 | every queue and capacity has the stopping point that `SweepMeaning` speaks of |
| Selection.SelectIsOneSweep | crates/mev-share-backend/src/service.rs:225-247 | searching high then normal is one sweep over both in a row, split again at the old boundary |
| Selection.SweepRestart | crates/mev-share-backend/src/service.rs:222-263 | searching again from the front after a removal selects the same requests as continuing |
| Selection.SelectRestart | crates/mev-share-backend/src/service.rs:222-263 | the same for the two queues and their boundary |
| Ledgers.StepConserves | crates/mev-share-backend/src/service.rs:289-370 | no message, completion, drop or start loses, duplicates or invents a request |
| Ledgers.Conservation | crates/mev-share-backend/src/service.rs:222-370 | over every run, a request with its whole payload was accepted as often as it is queued, in flight, cleared or finished |
| Ledgers.ExactlyOnePlace | crates/mev-share-backend/src/service.rs:222-370 | an accepted request is in exactly one place, one that was only rejected in none |
| Ledgers.MailboxFifo | crates/mev-share-backend/src/service.rs:383-386 | messages are handled in the order sent and none is lost |
| Ledgers.AnsweredOnce | crates/mev-share-backend/src/service.rs:312-326 | every handled submission was answered once, with Ok or QueueFull |
| Ledgers.ClearedForGood | crates/mev-share-backend/src/service.rs:305-308 | a request that was cleared at some point is at every later point in no queue, not in flight and in no final event |
| Ledgers.ClearSparesFlight | crates/mev-share-backend/src/service.rs:305-308 | a clear leaves nothing ongoing if and only if nothing was in flight; a simulation in flight is queued again when it asks for a retry if and only if it has retries left |
| Accounting.RetryAccounting | crates/mev-share-backend/src/service.rs:331-370 | a queued request was started `retries` times, one in flight once more; at most maxRetries + 1 starts; giving up after exactly that many; results report starts minus one |
| Bounds.AlwaysTidy | crates/mev-share-backend/src/service.rs:84-91 | in every reachable state no request has a back-off, retries are within the limit and each queue holds its own priority |
| Bounds.AlwaysFits | crates/mev-share-backend/src/service.rs:214-220 | in-flight within the concurrency limit; each queue with its in-flight requests within its limit plus the concurrency limit, for any block updates |
| Progress.WorkLowersPotential | crates/mev-share-backend/src/service.rs:382-407 | every message handled, completion, drop and start lowers the potential, whatever the outcome |
| Progress.WorkIsBounded | crates/mev-share-backend/src/service.rs:379-410 | work done plus work still possible is at most 2 * maxRetries + 3 per message sent |
| Witnesses.WorkBoundAttained | crates/mev-share-backend/src/service.rs:353-368 | that bound is reached by a poll loop for every number of messages |
| Witnesses.OvershootAttained | crates/mev-share-backend/src/service.rs:353-368 | in a poll loop's run a queue of either priority can reach its limit plus the concurrency limit |
| Limits.LimitZeroMeansNone | crates/mev-share-backend/src/service.rs:214-220 | with a limit of zero no request of that priority is ever queued or started |
| Limits.NoRetriesMeansWithinLimit | crates/mev-share-backend/src/service.rs:353-362 | without retries no queue exceeds its limit |
| Witnesses.WhenLimitsAreExceeded | crates/mev-share-backend/src/service.rs:312-368 | a queue can exceed its limit if and only if the limit, the retry limit and the concurrency limit are positive |
| Limits.SweepFreesSlots | crates/mev-share-backend/src/service.rs:266-286 | a selection removes as many requests as there are ripe ones, up to its capacity |
| Limits.SelectFreesSlots | crates/mev-share-backend/src/service.rs:266-286 | so a high queue over a bound by no more than its ripe requests gets back under it |
| Witnesses.WhenHighLimitNeedsClimbing | crates/mev-share-backend/src/service.rs:645-647 | if block numbers may go down, a round can end with the high queue over its limit and nothing to do, exactly when all three limits are positive |
| Rounds.SlackAlways | crates/mev-share-backend/src/service.rs:382-407 | throughout a climbing run of a poll loop, a high queue over its limit has ripe requests and free slots for the whole excess; so has the normal queue when the high limit is zero |
| Rounds.WithinLimitAtRest | crates/mev-share-backend/src/service.rs:382-407 | so whenever a round is over that queue is within its limit |
| Witnesses.WhenNormalIsLeftOver | crates/mev-share-backend/src/service.rs:222-263 | on a climbing run a round can end with the normal queue over its limit if and only if the high, the normal, the retry and the concurrency limit are positive |
| Witnesses.StartsWhenItCan | crates/mev-share-backend/src/service.rs:222-263 | a bundle whose window has a second block is started in some run of a poll loop, at either priority whose limit is positive |
| Witnesses.WhenBundlesStart | crates/mev-share-backend/src/service.rs:644-656 | a bundle is started in some run if and only if its window has a block after the first, there is a slot, and a queue has room |
| Windows.BlockTracksUpdates | crates/mev-share-backend/src/service.rs:292-304 | the current block is the last update handled, or the initial block |
| Windows.BlockClimbs | crates/mev-share-backend/src/service.rs:292-304 | while updates do not go down, the block at any earlier point of the run is at most the current one |
| Windows.StartsInsideWindow | crates/mev-share-backend/src/service.rs:644-656 | every start has first block < next block <= last block, and no request starts whose last block is reached |
| Windows.EligibleInsideWindow | crates/mev-share-backend/src/service.rs:644-656 | a request is eligible for the next block if and only if it is ready and its documented window covers that block and does not begin with it |
| Windows.OutdatedPastWindow | crates/mev-share-backend/src/service.rs:644-656 | a request is outdated if and only if it is ready and the next block is past its last one, reached first block or not |
| Windows.HasSecondBlockMeaning | crates/mev-share-rpc-api/src/types.rs:35-41 | the check of the two ends tells whether the documented window has a block other than its first |
| Windows.StartedHasSecondBlock | crates/mev-share-backend/src/service.rs:644-656 | over every run, only bundles whose window has a block after the first were ever started |
| Windows.OutdatedArePastWindow | crates/mev-share-backend/src/service.rs:249-255 | every OutdatedRequest event carries a next block past the request's last block |
| Windows.StartedWithinRun | crates/mev-share-backend/src/service.rs:644-656 | on a climbing run only requests whose first block was reached and whose last block was past the initial block were ever started |
| Windows.RetriedNeverWaits | crates/mev-share-backend/src/service.rs:353-368 | on a climbing run a request once started never waits for its first block again |
| Windows.BlockHistory | crates/mev-share-backend/src/service.rs:292-304 | the `old` fields of the block events and the current block are the initial block and all updates with consecutive duplicates removed |
| Windows.CurrentIsReplaced | crates/mev-share-backend/src/service.rs:292-304 | every block event of every run has `current` equal to the replaced number |
| Windows.UpdateReportsOldBlock | crates/mev-share-backend/src/service.rs:292-304 | an update emits no event if and only if it repeats the current block; otherwise one, whose `current` is not the new block |
| Listening.NotifiedMeaning | crates/mev-share-backend/src/service.rs:209-212 | a notification drops exactly the closed listeners and gives each other one the event, in order |
| Listening.ListenersAgree | crates/mev-share-backend/src/service.rs:209-212 | each listener has received exactly a suffix of the one sequence of events |
| Listening.BeginsAtRegistration | crates/mev-share-backend/src/service.rs:309-311 | that suffix begins where the listener's own registration was handled |
| Listening.ListenersStay | crates/mev-share-backend/src/service.rs:209-212 | a listener that registered and does not hang up is never dropped and has received every event since |
| Listening.AtMostOneResult | crates/mev-share-backend/src/service.rs:549-561 | no listener gets more than one result for an accepted request |
| Fairness.NoOvertaking | crates/mev-share-backend/src/service.rs:222-263 | whenever a request starts, all requests ahead of it still wait for their first block |
| Fairness.ArrivalOrder | crates/mev-share-backend/src/service.rs:312-326 | over every run, the requests of a queue that were never started stand in the order in which they were accepted |
| Fairness.BoundedBypass | crates/mev-share-backend/src/service.rs:222-263 | on a climbing run a high request whose first block is reached at position p sees at most p selections before it leaves the queue, each of a request ahead of it |
| Effects.RescheduledIsRipe | crates/mev-share-backend/src/service.rs:353-368 | on a climbing run every high request put back into the queue can be selected at once |
| Effects.SelectNothing | crates/mev-share-backend/src/service.rs:393-406 | a selection with capacity that takes nothing leaves only waiting requests |
| Service.BundleSimulatorService.constructor | crates/mev-share-backend/src/service.rs:174-195 | a new service is in the machine's initial state |
| Service.BundleSimulatorService.Send | crates/mev-share-backend/src/service.rs:43-51 | a handle's message is appended to the mailbox if the service still exists; otherwise nothing happens and the answer is ServiceUnavailable |
| Service.BundleSimulatorService.Shutdown | crates/mev-share-backend/src/service.rs:119-141 | the messages left without an answer are exactly those sent after the handled ones |
| Service.BundleSimulatorService.NotifyListeners | crates/mev-share-backend/src/service.rs:209-212 | the loop over the listeners gives exactly the machine's notification |
| Service.BundleSimulatorService.OnMessage | crates/mev-share-backend/src/service.rs:289-328 | one message is one machine step; a submission is answered Ok if and only if its queue has room, and then stands at the back of its own priority's queue; a clear empties both queues; an update sets the block and is announced if it changes it; the high limit is kept |
| Service.BundleSimulatorService.OnSimulationOutcome | crates/mev-share-backend/src/service.rs:331-370 | a success adds one Ok event with the simulator's response, a fatal end one Err event with its error; a retry left puts the request with one more retry at the back of its own priority's queue without an event; without one there is one ExceededMaxRetries event |
| Reports.CompletionMeaning | crates/mev-share-backend/src/service.rs:331-370 | the same of the transition system, with everything else unchanged |
| Reports.EventsAreTold | crates/mev-share-backend/src/service.rs:249-370 | the events of every run are, in order, what its actions have to announce: block changes, outcomes, exhausted retries and outdated requests |
| Reports.ResultsAreOutcomes | crates/mev-share-backend/src/service.rs:335-352 | over every run, the results among the events are the successes and fatal ends of simulations in the order in which they ended, with request, overrides, retries and response or error |
| Reports.ListenerGetsOutcomes | crates/mev-share-backend/src/service.rs:209-212 | the results a listener has received are the outcomes of the simulations that ended last, none missing |
| Service.BundleSimulatorService.FindPosition | crates/mev-share-backend/src/service.rs:224-239 | finds the first request over both queues that is outdated or eligible and says which, or that all wait |
| Service.BundleSimulatorService.RemoveAt | crates/mev-share-backend/src/service.rs:241-247 | removes that request from the queue it is in |
| Service.BundleSimulatorService.TakeOut | crates/mev-share-backend/src/service.rs:241-258 | removing and reporting is one drop, removing and returning is one start |
| Service.BundleSimulatorService.PopNextReady | crates/mev-share-backend/src/service.rs:222-263 | yields the next request of the one-sweep selection, after dropping and reporting the outdated ones before it in order |
| Service.BundleSimulatorService.PopBestRequests | crates/mev-share-backend/src/service.rs:266-286 | the nested restarting loops compute the one-sweep selection for the free capacity: batch, remaining queues and events; afterwards every slot is taken or every queued request waits |
| Service.BundleSimulatorService.DrainMessages | crates/mev-share-backend/src/service.rs:383-386 | handles exactly the messages that the channel hands over, oldest first, and no others; keeps the high limit, terminates, and a new selection may begin |
| Service.BundleSimulatorService.DrainCompletions | crates/mev-share-backend/src/service.rs:388-391 | handles exactly the simulations that are handed over, in that order; k requests put back into the high queue free k slots, and on a climbing run at least k queued high requests can be selected |
| Service.BundleSimulatorService.StartAll | crates/mev-share-backend/src/service.rs:396-402 | the selected batch goes in flight in order |
| Service.BundleSimulatorService.PollOnce | crates/mev-share-backend/src/service.rs:382-407 | one round handles exactly the messages and then the completions that are ready, and then selects until nothing is left; it reports no more work if and only if it started nothing; while blocks do not go down, the high queue is within its limit afterwards, and the normal queue if the high limit is zero; in-flight stays within the concurrency limit; every slot is taken or every queued request waits |
| Service.BundleSimulatorService.Poll | crates/mev-share-backend/src/service.rs:379-410 | stops after the first round that started nothing and not before; each round does what its part of the script makes ready, so a message that has arrived and is ready is handled; terminates within the potential for any simulator; on return every slot is taken or every queued request waits |
| Polls.KnownMeaning | crates/mev-share-backend/src/service.rs:388-391 | the completions handled are all those handed over up to the first that is not in flight |
| Polls.RoundIsDetermined | crates/mev-share-backend/src/service.rs:382-407 | two rounds from the same state with the same things ready do the same |
| Polls.PollIsDetermined | crates/mev-share-backend/src/service.rs:379-410 | two polls from the same state with the same script make the same rounds and stop at the same point |
| Service.BundleSimulatorService.HoldsAlways | crates/mev-share-backend/src/service.rs:153-170 | conservation, limits, answers, retry accounting, block clock, listeners and the work bound hold of the fields of the service |
| Service.BundleSimulatorService.HoldsOfWindows | crates/mev-share-backend/src/service.rs:153-170 | so do the theorems on windows, arrival order, events and results |
| Service.SimulationResultStream.PollNext | crates/mev-share-backend/src/service.rs:549-561 | yields exactly the results among the events, failures as well as successes, in order: one poll consumes events up to the first result and yields it, or all that are ready if none is a result; it ends only when all senders are gone and nothing is left |
| Listening.ResultsOfOne | crates/mev-share-backend/src/service.rs:549-561 | a result of either kind is let through, and none of the other three kinds of event |
| Listening.ResultsConcat | crates/mev-share-backend/src/service.rs:549-561 | what is let through of two lists of events in a row is what is let through of each |
| EventStreams.FlattenedFront | crates/mev-share-sse/src/client.rs:241-271 | what one frame contributes to what the stream delivers |
| EventStreams.FlattenedMeaning | crates/mev-share-sse/src/client.rs:217-277 | the stream delivers the segments of the connections it opened, one after the other, then the error of a failed reconnect |
| EventStreams.EndingMeaning | crates/mev-share-sse/src/client.rs:227-240 | there is one final error exactly when the last connection asked to reconnect: the maximum if the counter has reached it, else the refusal of the attempt that followed that connection |
| EventStreams.OpenedMeaning | crates/mev-share-sse/src/client.rs:223-261 | the connections opened are those of the network in order; each but the last asked to reconnect and was admitted; the last did not ask, was not admitted or was refused |
| EventStreams.AnswersDeliver | crates/mev-share-sse/src/client.rs:217-277 | the items among the answers of successive polls are what the stream delivers |
| EventStreams.WaitsAsAsked | crates/mev-share-sse/src/client.rs:253-260 | a retry frame costs exactly the pending polls it asked to wait, and nothing that follows changes |
| EventStreams.PendingChangesNothing | crates/mev-share-sse/src/client.rs:267 | polls that are not ready, on any connection of the script, change nothing of what is delivered |
| EventStreams.BehindRetryIsLost | crates/mev-share-sse/src/client.rs:253-261 | what a connection sends behind its first retry frame is never delivered |
| EventStreams.AutomaticReconnectsAreUnbounded | crates/mev-share-sse/src/client.rs:253-260 | if one automatic reconnect is admitted, any number of attempts and of connections can follow |
| EventStreams.WhenMaxRetriesBounds | crates/mev-share-sse/src/client.rs:305-312 | the maximum bounds the automatic attempts, and the connections they open, for every script if and only if the counter has already reached it |
| EventStreams.DialsDueMeaning | crates/mev-share-sse/src/client.rs:223-261 | there is one automatic attempt for each connection opened after the first, and one more if the last one failed; all with the stream's own count and endpoint |
| EventStreams.EventStream.constructor | crates/mev-share-sse/src/client.rs:70-82 | a new stream is active with a count of zero |
| EventStreams.EventStream.ResetRetries | crates/mev-share-sse/src/client.rs:194-197 | sets the count to zero and starts a new budget |
| EventStreams.EventStream.Redial | crates/mev-share-sse/src/client.rs:305-318 | counts first, dials only within the maximum, and reports how the attempt ended |
| EventStreams.EventStream.Retry | crates/mev-share-sse/src/client.rs:202-206 | replaces the state only on success; answers the maximum without an attempt if the count has reached it, and otherwise the refusal of its one attempt; counted manual attempts since the last reset are min(count, maximum) |
| EventStreams.EventStream.RetryWith | crates/mev-share-sse/src/client.rs:209-214 | the same, with the same errors, at a new endpoint, kept even on failure |
| EventStreams.EventStream.FinishRetry | crates/mev-share-sse/src/client.rs:227-235 | a due reconnect becomes a connection or a last error; it dials if and only if its copy of the count is below the maximum, and then with that copy |
| EventStreams.EventStream.PollActive | crates/mev-share-sse/src/client.rs:241-271 | one poll of an open connection delivers the next item, or turns to reconnecting or ended; a retry frame starts a reconnect with the wait it asked for |
| EventStreams.EventStream.PollNext | crates/mev-share-sse/src/client.rs:220-276 | delivers exactly the next undelivered item; each answer is the next one of the script's, pending ones included; a reconnect that still has to wait answers pending and makes no attempt; empties the slot only by consuming End; never changes the counter; each attempt made is the next one planned, with the count and endpoint copied at the retry frame; terminates |
| EventStreams.EventStream.Collect | crates/mev-share-sse/src/client.rs:113-118 | a caller that stops at the first None gets the flattened script, makes exactly the planned attempts and never meets an empty slot, and its polls' answers are exactly the script's |
| PrivacyHints.RoundTrip | crates/mev-share-rpc-api/src/types.rs:227-269 | deserialize after serialize is the identity |
| PrivacyHints.OnlyTheSetMatters | crates/mev-share-rpc-api/src/types.rs:252-269 | the result depends only on the set of names |
| PrivacyHints.Canonical | crates/mev-share-rpc-api/src/types.rs:227-269 | serialize after deserialize is the canonical-order duplicate-free list of the same names |
| PrivacyHints.NumHints | crates/mev-share-rpc-api/src/types.rs:203-224 | the number of hints is the length of the written list |
| PrivacyHints.ReadsEachName | crates/mev-share-rpc-api/src/types.rs:257-265 | each of the six names, as spelled on the wire, alone gives exactly its own hint |
| PrivacyHints.WritesEachName | crates/mev-share-rpc-api/src/types.rs:230-247 | each of the six names, as spelled on the wire, is written if and only if its hint is given, and nothing else is |
| PrivacyHints.WritesInOrder | crates/mev-share-rpc-api/src/types.rs:230-247 | the order of the six names on the wire |
| PrivacyHints.Serialize | crates/mev-share-rpc-api/src/types.rs:227-250 | writes the given hints' names in canonical order and announces their number |
| PrivacyHints.SetFlag | crates/mev-share-rpc-api/src/types.rs:257-265 | each of the six names on the wire sets its own flag and no other; any other name is rejected |
| PrivacyHints.Deserialize | crates/mev-share-rpc-api/src/types.rs:252-269 | fails exactly when some name is none of the six on the wire; otherwise each hint is given if and only if its name is in the list |

## Left out

- Accounting.RetryAccounting: `retries` and the lengths are unbounded here; `usize` overflow after 2^64 restarts of one request is not modelled.
- EventStreams.EventStream.Retry: the `u64` retry count is unbounded here in the same way.
- Service.BundleSimulatorService.Send: the handle is not an object of its own; its methods that only build a message are this one method.
- Service.BundleSimulatorService.Shutdown: the channel on which one sender waits for its answer is not an object; which messages go unanswered is stated for all senders together.
- Service.BundleSimulatorService.HangUp: listeners hang up between polls in the class, at any point in `Machine`; channels are values, so aliasing of senders is not captured.
- `queued_jobs()`: its counter is created as zero and never written.
- Wakers: a poll's script says what is ready; that the task is woken when something becomes ready is not modelled.
- Pinning, channel internals, memory ordering and real time.
- `backed_off_until`: no code sets it; the selection handles it, the run theorems show that it stays unset.
- Connecting, HTTP, SSE byte decoding and JSON: the network script starts at decoded frames.
- `event_history` and `event_history_info` of the SSE client: one HTTP request each, without any state.
- RPC clients: each call is passed on to `jsonrpsee`, which is not part of this model.
- Request signing: one hash and one signature over the body of a request, both made by `ethers`, which is not part of this model.
- The SSE server: its fan-out to subscribers is the broadcast channel of `tokio`, which is not part of this model.
- The other request and answer types: their codecs are derived by `serde`, which is not part of this model.
- The codec of `BundleStats`: it picks one of three shapes by `receivedAt` and `isSimulated`, and the fields inside are read and written by derived code.
