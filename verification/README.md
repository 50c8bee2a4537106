# Verification model of acemq-amqp

A Dafny model of the client half of an at-least-once messaging library, and proofs about the small
protocols it runs between a handler, a broker and a shared store. `dafny verify dfyconfig.toml`
checks all of it.

Each protocol is a state machine over values: a `World`, a `Step` for everything that can happen
between two awaits, `Enabled` and `Apply`, and `Run` over any sequence of enabled steps. The theorems
are about every run. Beside the machine stands the code itself in its own form: loops and functions
where the source computes, and classes whose methods take the source's branches where the source
changes state. At each `await` such a method lets everybody else take any enabled steps, and its
contract says that what it did is a run of the machine, so what holds of every run holds of it.

| file | models |
|---|---|
| `Retry.dfy`, `Naming.dfy`, `Topology.dfy` | the retry policy and its rungs, queue names, what a topology and a consumer declare |
| `Envelope.dfy` | the envelope and its headers |
| `Settlement.dfy`, `Binding.dfy`, `RetriesEnd.dfy`, `RetriesRest.dfy`, `Answers.dfy`, `Broker.dfy`, `Consumer.dfy` | the consumer's settlement engine: the machine, its safety, what the rungs' way home is for, how retries end and come to rest, what each answer comes to, and the methods |
| `Shutdown.dfy` | closing a consumer |
| `Lease.dfy`, `Guard.dfy`, `MemoryStore.dfy` | the idempotency lease in a table, the guarded handler, and the in-memory store |
| `Outbox.dfy`, `OutboxRuns.dfy` | the outbox store and relay, sweep by sweep and step by step |
| `StreamPosition.dfy` | the offset a stream reader resumes from |
| `KeyedLocks.dfy` | locks per key that are forgotten when nobody needs them |
| `Ladder.dfy`, `Scheduler.dfy` | the scheduler's rungs in time, and its messages under failure |
| `RoutingSlip.dfy` | itineraries and the hop from stop to stop |
| `Replay.dfy` | moving messages back from a queue |
| `Sums.dfy` | sums over maps, for termination measures |

Where a plain statement is false of the code, the model keeps the code, gives an input or a run on which
the statement fails, and says exactly when it holds: the two delay loops (`LoopsCanDisagree`,
`LoopsAgreeExactlyWhen`), rungs declared and never asked for (`RungAskedExactlyWhen`), rungs of one name
(`TwoRungsOfOneName`, `StandardTopologyValidates`), lossless envelopes (`HalfAMillisecondIsLost`,
`LosslessExactlyWhenNormal`), the stream offset (`NextCanSkip`, `ReconnectSkipsExactlyWhen`,
`LateSettlementGoesBack`, `NeverGoesBackExactlyWhen`), declared routes (`ASpaceIsLost`,
`AStaleSlipIsFollowed`, `DeclaredReadsBackExactlyWhen`), the prefix sweep (`AClockGoneBackHidesTheExpired`,
`SweepIsEnoughExactlyWhen`, `ClaimsRightExactlyWhen`), a second `close` (`SecondCloseCanMislead`,
`SecondCloseMisleadsAfterwards`, `SecondCloseMisleadsExactlyWhen`) and replays that feed their own source (`SetAsideGoesRound`, `ReplayDrainsExactlyWhen`). The lease holds
for runs in which every holder, from asking until its `confirm` or `forget` is done, stays inside its
claim timeout (`OneHandlerAtATime`); from every state such runs reach, the first holder to outstay it, be
it running, confirming or forgetting, lets the promise be broken at once (`OverstayingBreaks`).

Where the code and its documentation differ, the code is followed:

- `src/acemq_amqp/patterns/idempotency.py:163-202` says a store like the in-memory one has no `confirm` method and is
  unaffected by it; that store has one, and the model confirms in place.
- `src/acemq_amqp/patterns/idempotency.py:247` reads the action of whatever the handler returned. For something that
  is not an acknowledgement that raises outside the handler's `try`, so the claim is neither confirmed
  nor forgotten.
- `src/acemq_amqp/patterns/idempotency.py:141-148` says keys are inserted in the order they are first seen, so
  that everything expired is a prefix; a claim reads the clock before it takes the lock, so two threads can
  insert the other way round, and an expired key is then held for as much longer as the two were apart.
- `src/acemq_amqp/connection.py:1235-1241` answers a second `close` with true for every close a handler did not
  start, also while that one is still at it and after it has cut handlers off.
- `src/acemq_amqp/rabbitmq.py:417-426` promises that the recorded offset is what a queue would redeliver and nothing it
  would not; entries settled out of order are delivered again, and late settlements followed by a
  redelivery take the offset back.
- `src/acemq_amqp/topology.py:380-388` adds a queue for every rung delay, so two delays with one name make a topology
  that does not validate, where the consumer at `src/acemq_amqp/topology.py:647-652` keeps the first delay of a name.

## Model

| member | source | states |
|---|---|---|
| Retry.RoundHalfEven | src/acemq_amqp/retry.py:195-205 | a delay times a float rounds to the nearest microsecond, and to the even one of two |
| Retry.ComputeSchedule | src/acemq_amqp/retry.py:207-222 | the loop of `schedule` gives, for every attempt that can be followed by another, the initial delay multiplied that often and capped |
| Retry.ComputeUnjittered | src/acemq_amqp/retry.py:195-205 | the early-exit loop gives the ceiling for ever once a multiplied delay has crossed it, and otherwise the capped delay |
| Retry.DistinctIs | src/acemq_amqp/retry.py:142-153 | the rungs are the scheduled delays at or over the threshold, all of them and each once |
| Retry.DistinctInOrder | src/acemq_amqp/retry.py:142-153 | in the order their delays are first reached |
| Retry.EarlyExitIsHarmless | src/acemq_amqp/retry.py:195-222 | with a multiplier of one or more the two loops agree at every attempt the policy allows |
| Retry.LoopsAgreeExactlyWhen | src/acemq_amqp/retry.py:195-222 | for every policy they agree exactly when no delay falls back under a ceiling the second one is over or, for a negative multiplier, none before the last but one crosses the ceiling |
| Retry.LoopsCanDisagree | src/acemq_amqp/retry.py:195-222 | a policy whose schedule shows 1.25s where it waits 3s |
| Retry.BrokerWaitsAreRungs | src/acemq_amqp/retry.py:165-193 | whatever the multiplier, a wait sent to the broker is one of the declared rungs |
| Retry.RungAskedExactlyWhen | src/acemq_amqp/retry.py:142-205 | a declared rung is the wait after some attempt exactly when it is the ceiling or scheduled before the ceiling is crossed |
| Retry.RungsAreAsked | src/acemq_amqp/retry.py:142-193 | such a rung, and every rung where the loops agree, is where the message waits after that attempt |
| Retry.RungsStrictlyIncrease | src/acemq_amqp/retry.py:142-153 | with a multiplier of one or more the rungs are strictly increasing |
| Retry.NextWaitIs | src/acemq_amqp/retry.py:165-193 | there is a next attempt exactly while the policy has one left and the message is not too old; an unjittered wait or one in the broker lasts the scheduled delay, after a crossing the ceiling, and never less than nothing, a jittered one what the jitter made of it; and it is in the broker exactly when the delay is positive and at or over a positive threshold |
| Retry.DoublingASecond | src/acemq_amqp/retry.py:165-222 | a second, doubled four times under a minute, is one, two, four and eight seconds |
| Naming.DecimalReadsBack | src/acemq_amqp/naming.py:55-64 | a number written in decimal reads back as itself |
| Naming.ShortReadsBack | src/acemq_amqp/naming.py:55-64 | a rung's suffix reads back as its whole seconds, none for a negative or sub-second delay |
| Naming.SameNameExactlyWhen | src/acemq_amqp/naming.py:44-64 | two delays name one rung exactly when they are the same number of whole seconds |
| Naming.NamesApart | src/acemq_amqp/naming.py:34-52 | a queue, its dead letters, its parking lot and any of its rungs have different names |
| Naming.NamesOfOrders | src/acemq_amqp/naming.py:34-64 | the names of what goes with `orders.new`, as every library of the family writes them |
| Topologies.Topology.AddQueue | src/acemq_amqp/topology.py:236-396 | adding a queue with dead letters and rungs turns the three lists into the ones specified, or refuses for the reason specified and changes nothing |
| Topologies.AddedUnless | src/acemq_amqp/topology.py:236-396 | a queue is added unless it has no name or its request contradicts itself |
| Topologies.QueueDeclared | src/acemq_amqp/topology.py:236-396 | it is declared first, as durable as asked and of the type that was written down, asked for, or is the default |
| Topologies.DeadLettersLead | src/acemq_amqp/topology.py:339-396 | with dead letters, what it rejects goes through a direct durable exchange, by a binding of the same description, to its own dead-letter queue |
| Topologies.AddingKeepsSound | src/acemq_amqp/topology.py:236-396 | to a description that validates any queue of new names can be added, with dead letters and rungs of different names |
| Topologies.Topology.Validate | src/acemq_amqp/topology.py:436-475 | the seen-set loops accept a description exactly when no name is declared twice and every binding names a declared queue and exchange |
| Topologies.DeclareWhereFailuresGo | src/acemq_amqp/topology.py:603-665 | a consumer declares and binds, in order, its dead letters, its parking lot and one rung for each name |
| Topologies.RungOfTwoMinutes | src/acemq_amqp/topology.py:119-146 | the three arguments of a rung, written out |
| Topologies.FirstReachesFirst | src/acemq_amqp/topology.py:638-652 | the delay that owns a rung name is the first of those with that name |
| Topologies.DeclaresBeforeBinding | src/acemq_amqp/topology.py:603-665 | a consumer binds nothing before it has declared the exchange and, but for its source queue, the queue |
| Topologies.StandardTopologyValidates | src/acemq_amqp/topology.py:236-475 | the description of a durable queue with dead letters and a policy validates exactly when no two of its rungs share their whole seconds |
| Topologies.TwoRungsOfOneName | src/acemq_amqp/topology.py:380-388 | a policy of ten seconds and ten and a half has two rungs of one name and does not validate |
| Topologies.ConsumerAgreesWithTopology | src/acemq_amqp/topology.py:603-665 | everything the consumer declares or binds for a queue is in that description with the same arguments |
| Topologies.ConsumerDeclaresTheRest | src/acemq_amqp/topology.py:603-665 | and what the description has besides is the source queue and rungs whose name another has |
| Topologies.BrokerWaitsHaveARungHome | src/acemq_amqp/topology.py:638-665 | every wait sent to the broker has a rung the consumer declared, with a TTL within a second of the wait, and of the wait to the millisecond where names are distinct; its arguments dead-letter what expires through a declared direct exchange and by a declared binding to the source queue, and to no other |
| Envelopes.WriteHeaders | src/acemq_amqp/envelope.py:144-189 | filling the dictionary field by field gives the headers specified name by name |
| Envelopes.ForeignReads | src/acemq_amqp/envelope.py:192-244 | a message without any of the reserved headers reads as a first attempt of version one, seen now, under the broker's message id and its routing key, and its headers are sorted |
| Envelopes.OddNumbersRead | src/acemq_amqp/envelope.py:192-244 | a number that cannot be read takes its default, and none is less than the least it can be |
| Envelopes.TripSettles | src/acemq_amqp/envelope.py:104-244 | one trip over the wire keeps every field but for the defaults it fills in and the millisecond it rounds to |
| Envelopes.LosslessExactlyWhenNormal | src/acemq_amqp/envelope.py:144-244 | a trip gives an envelope back, however it was made, exactly when it is in normal form |
| Envelopes.HalfAMillisecondIsLost | src/acemq_amqp/envelope.py:144-189 | an envelope dated within a millisecond comes back with another time |
| Envelopes.ReadableTrips | src/acemq_amqp/envelope.py:192-244 | whatever was read from headers comes back from a trip but for a route position or run that had no route |
| Envelopes.OneTripNormalizes | src/acemq_amqp/envelope.py:192-244 | whatever headers arrive, what is read from them is in normal form after one more trip |
| Envelopes.HopsChangeOnlyTheAttempt | src/acemq_amqp/connection.py:1167-1189 | any number of retry hops over the wire changes the attempt and nothing else |
| Envelopes.ExtensionsNeverOverride | src/acemq_amqp/envelope.py:144-189 | no application header or unknown extension changes what a reader takes for a known field |
| Settlement.QueueIdsAreNames | src/acemq_amqp/naming.py:34-64 | the queues of one consumer are told apart by the model exactly when their names differ, and the rung of a delay is the queue named for it |
| Settlement.NoMessageIsLost | src/acemq_amqp/connection.py:852-1198 | in every reachable state, with any publish outcome, missing rungs, crashes, lost channels and expiring rungs, a published message was acknowledged by a delivery whose handler accepted it, or has a copy in the source queue, unsettled, on a declared rung, in the dead letters or parked, with its body and metadata; an accept whose acknowledgement is lost is not enough |
| Settlement.EveryHopIsLossless | src/acemq_amqp/connection.py:1167-1198 | every copy in every reachable state differs from what was published in attempt and error only, its attempt is within the policy, and it reads back from the wire as it was written |
| Settlement.AckOnlyWhenStored | src/acemq_amqp/connection.py:1914-1979 | a publish lets its delivery be acknowledged exactly when it was confirmed and routed, and then the copy is on the queue it was meant for |
| Settlement.FinishAcksOnlyAccept | src/acemq_amqp/connection.py:766-931 | of all a handler can answer only an accept starts an acknowledgement |
| Settlement.WhereAnswersLead | src/acemq_amqp/connection.py:766-931 | each queue, a further attempt, a put-back on the same attempt and a give-back are reached by exactly the answers meant for them, counting attempts and age |
| Answers.AnswersAreKept | src/acemq_amqp/connection.py:636-1198 | from an answer on, in every run: the handler is not run again on that delivery, the consumer sleeps only as long as the answer or the policy says, and each publish for it stores what is owed, on its queue with its attempt and error and the message's own bytes, or nothing, and is acknowledged only if it stored |
| Answers.AnswersSetAside | src/acemq_amqp/connection.py:766-931 | an answer that sets a message aside: when its delivery is acknowledged the message is on the queue meant for that answer, with the reason as its error |
| Answers.UnreadableIsParked | src/acemq_amqp/connection.py:661-675 | a body that cannot be decoded: no handler runs, and when it is acknowledged the message is in the parking lot with the reason |
| Answers.NothingAfterTheStop | src/acemq_amqp/connection.py:637-641 | after an answer that stops the reader, no delivery of its channel that was not started yet is ever run or acknowledged or moved on: it stays queued, is given back, or is in the machine no more |
| Answers.GivenBackAsItWas | src/acemq_amqp/connection.py:636-931 | a delivery given back, or lost with its channel or process, is on its own queue again as it was, and no other copy changes |
| Answers.SleepsExactlyWhen | src/acemq_amqp/connection.py:852-931 | the consumer waits exactly when the answer asks it to put the message back later, or a further attempt is to be waited for here |
| Answers.PublishEnds | src/acemq_amqp/connection.py:933-1198 | how each end of a publish leaves the delivery: acknowledged, given back, waited for here, or unsettled |
| Binding.ExpiryNeedsTheBinding | src/acemq_amqp/topology.py:661-665 | for a policy that sends a wait to a rung, no run from an empty broker loses a message that was not acknowledged after an accept exactly when the retry exchange is bound to the source queue |
| RetriesEnd.RetriesEnd | src/acemq_amqp/connection.py:809-1062 | with a broker that takes every republish and a handler that always asks for a retry, a message is run no more than max(1, attempts left + 1) times in any run, and exactly that often when it rests in the dead letters, unless in that run one of its answers came past the age limit |
| RetriesEnd.SomethingCanMove | src/acemq_amqp/connection.py:852-1062 | in such a run a message anywhere but in the dead letters always has a next step |
| RetriesRest.CalmRunsComeToRest | src/acemq_amqp/connection.py:852-1062 | such a run without new messages is no longer than a sum over its messages, so every one of them comes to rest |
| RetriesRest.RestIsTheDeadLetters | src/acemq_amqp/connection.py:852-1062 | nothing in such a run can move any more exactly when everything is in the dead letters |
| RetriesRest.EveryMessageComesToRest | src/acemq_amqp/connection.py:809-1062 | once new messages stop, such a run goes on no longer than that sum, and where nothing can move any more each message has exactly one copy, in the dead letters, and was run exactly max(1, attempts left + 1) times, unless one of its answers came past the age limit |
| RetriesRest.RestCanBeReached | src/acemq_amqp/connection.py:852-1062 | and such an end can be reached from every state of such a run |
| Consumers.SettledAtMostOnce | src/acemq_amqp/connection.py:636-738 | in no run is a delivery settled twice |
| Consumers.Consumer.Republish | src/acemq_amqp/connection.py:1167-1198 | a republish leaves the worker where its hop says for the way the publish ended |
| Consumers.Consumer.RetryInBroker | src/acemq_amqp/connection.py:933-1010 | a rung that takes the message settles the delivery, one that refuses gives it back, and a missing one is waited for here |
| Consumers.Consumer.MoveOn | src/acemq_amqp/connection.py:1128-1165 | the delivery is settled once, or left unsettled after an error nobody caught |
| Consumers.Consumer.CarryItOut | src/acemq_amqp/connection.py:852-923 | the branches of `_carry_out` are those of the machine, and settle the delivery once or leave it unsettled |
| Consumers.Consumer.HandleOne | src/acemq_amqp/connection.py:636-738 | handling one delivery is a run of the machine that settles it once or leaves it to the broker; after the reader stopped it is given back and no handler runs; a body that cannot be decoded is in the parking lot when it is acknowledged, and no handler runs; on any other the handler runs once |
| Shutdown.ClosingIsClean | src/acemq_amqp/connection.py:1210-1284 | over every interleaving of deliveries, workers, a close from outside or from a handler, deadline, errors and cancellations: nothing is settled twice or after the subscription is released, and when the close under way reports every handler finished it cut none off and left nothing queued |
| Shutdown.UnstartedIsGivenBack | src/acemq_amqp/connection.py:1243-1250 | a delivery no worker took up is given back, if it is settled at all, and never acknowledged |
| Shutdown.IdleWorkersAreDismissed | src/acemq_amqp/connection.py:1243-1256 | the workers go on until the queue is drained; while `close` waits for them each that is idle can end by itself, and none is cut off |
| Shutdown.SecondCloseMisleadsExactlyWhen | src/acemq_amqp/connection.py:1226-1241 | a close called again says that every handler finished, when the subscription is not released or a delivery was left unfinished, exactly when no handler started the first close and that one is not over, or did not see every worker done and left a delivery unfinished |
| Shutdown.SecondAnswerIsTheFirstsExactlyWhen | src/acemq_amqp/connection.py:1235-1284 | after a first close that is over, the second is told what the first was told exactly when a handler started that or it saw every worker done; and the first itself says that every handler finished only when it is so |
| Shutdown.SecondCloseIsRight | src/acemq_amqp/connection.py:1235-1241 | said of a close a handler started, or of one that found every worker done, it is true |
| Shutdown.SecondCloseCanMislead | src/acemq_amqp/connection.py:1235-1241 | a run in which it is said with a delivery in a worker's hands |
| Shutdown.SecondCloseMisleadsAfterwards | src/acemq_amqp/connection.py:1235-1284 | a run in which the first close timed out, cut a handler off and said so, and the second is told that every handler finished |
| Shutdown.Consumer.CloseAgain | src/acemq_amqp/connection.py:1235-1241 | the branches of a close called again give that answer |
| Shutdown.CutWorkersCanEnd | src/acemq_amqp/connection.py:1253-1268 | whatever is still running when close cuts it off can end, without settling anything |
| Shutdown.Consumer.Drain | src/acemq_amqp/connection.py:1243-1250 | the drain loop gives back everything queued, and ends |
| Shutdown.Consumer.CloseIt | src/acemq_amqp/connection.py:1210-1284 | close ends with the subscription released last and every worker ended |
| Lease.WinnerIsAlone | src/acemq_amqp/patterns/sql.py:534-570 | a claim that wins its INSERT or its guarded UPDATE finds no other holder and no lasting confirmation |
| Lease.OneHandlerAtATime | src/acemq_amqp/patterns/sql.py:534-680 | while holders keep to the claim timeout, no two calls run one key's handler at once and none runs it while a confirmation lasts, whatever takeovers, releases, purges, lost answers and crashes occur |
| Lease.OverstayingBreaks | src/acemq_amqp/patterns/sql.py:551-644 | from every state timely runs reach, the first moment any holder, running, confirming or forgetting, is past its timeout, calls that ask only then make two handlers run at once or one beside a lasting confirmation |
| Lease.TimelyBreaksNothing | src/acemq_amqp/patterns/sql.py:534-680 | and timely runs never do |
| Lease.LateForgetBreaks | src/acemq_amqp/patterns/sql.py:624-644 | a late `forget` deletes the running claim of another call on its node, and a third call runs beside that |
| Lease.LateConfirmBreaks | src/acemq_amqp/patterns/sql.py:587-622 | a late `confirm` writes over another call's running claim |
| Lease.HandledIs | src/acemq_amqp/patterns/idempotency.py:231-253 | the keys counted as handled are those a handler accepted in the run |
| Lease.AcceptingMeansHandled | src/acemq_amqp/patterns/idempotency.py:213-253 | in every run, timely or not, a delivery is accepted only if a handler accepted a message of its key |
| Lease.LiveClaimsTurnAway | src/acemq_amqp/patterns/sql.py:572-583 | while somebody's live unconfirmed claim stands, a call is answered in progress, or retried when the store fails, and never run or accepted |
| Lease.ConfirmationsLast | src/acemq_amqp/patterns/sql.py:587-680 | a confirmation is in the table until its retention is over, in every run, timely or not |
| Lease.ConfirmedTurnsAway | src/acemq_amqp/patterns/sql.py:572-583 | while the key's confirmation lasts, a call that asked while it did never runs: it is answered as a duplicate, or retried when the store fails |
| Lease.ConfirmingRecords | src/acemq_amqp/patterns/sql.py:587-622 | once the handler has accepted, a confirmation that is heard leaves the key confirmed from then on for the retention, over the row it finds or by one of its own |
| Lease.ForgettingFrees | src/acemq_amqp/patterns/sql.py:624-644 | a `forget` in time that is heard leaves the key to the next call that asks, which runs |
| Guard.SharedStore.ClaimKey | src/acemq_amqp/patterns/sql.py:516-585 | the three statements of `claim`, each decided by its row count, answer what the machine says with anything happening between them |
| Guard.SharedStore.AskFor | src/acemq_amqp/patterns/sql.py:516-585 | asked for a key whose confirmation lasts meanwhile, `claim` says it is a duplicate, or fails with the store |
| Guard.SharedStore.ConfirmKey | src/acemq_amqp/patterns/sql.py:587-622 | `confirm` ends the call accepted; when it is known to be recorded, the confirmed row is in the table for the retention |
| Guard.SharedStore.Guarded | src/acemq_amqp/patterns/idempotency.py:213-253 | the wrapped handler answers with its own decision when it ran, and otherwise refuses an empty key, retries, accepts, or defers by the delay configured; while a confirmation of the key lasts the handler does not run and the message is accepted unless the store fails; it accepts only what a handler accepted |
| MemoryStore.SweepIsEnoughExactlyWhen | src/acemq_amqp/patterns/idempotency.py:141-154 | the walk that stops at the first live key removes everything expired exactly when what has expired is a prefix |
| MemoryStore.AClockGoneBackHidesTheExpired | src/acemq_amqp/patterns/idempotency.py:141-154 | a store, with an entry claimed late before one claimed early, of which the walk removes nothing |
| MemoryStore.OrderedExpiresInFront | src/acemq_amqp/patterns/idempotency.py:141-154 | with entries inserted in the order of their times it always is; a clock that does not go back gives that order to one thread, not to several |
| MemoryStore.ClaimsRightExactlyWhen | src/acemq_amqp/patterns/idempotency.py:115-154 | after the sweep a key is held exactly when it is held inside the window, unless and only unless an expired entry of that key stands behind one that is not expired |
| MemoryStore.SkewedClaims | src/acemq_amqp/patterns/idempotency.py:115-154 | with claims whose clocks were read up to a skew out of order, no key inside the window is claimed again and none is held for longer than the window and the skew |
| MemoryStore.InMemoryIdempotencyStore.Sweep | src/acemq_amqp/patterns/idempotency.py:141-154 | the deleting loop is that walk, and leaves exactly what is inside the window when and only when what has expired is in front |
| MemoryStore.InMemoryIdempotencyStore.ClaimKey | src/acemq_amqp/patterns/idempotency.py:115-124 | at any time: a key is taken on exactly when the walk left no entry of it and is a duplicate exactly when what it left was handled, which is as the window says unless the key is hidden; the order of insertion holds up to the skew of the clocks |
| MemoryStore.ConfirmedKeeps | src/acemq_amqp/patterns/idempotency.py:129-135 | confirming in place keeps the order the sweep relies on and every other entry |
| MemoryStore.InMemoryIdempotencyStore.Forget | src/acemq_amqp/patterns/idempotency.py:137-139 | forgetting removes that key and no other |
| Outbox.SweepLessens | src/acemq_amqp/patterns/outbox.py:377-458 | every sweep with something to publish lessens the sum of attempts left, whatever the broker answers |
| Outbox.SweptConserves | src/acemq_amqp/patterns/outbox.py:377-458 | a sweep takes away exactly what it saw published, and keeps the rest with its message; the record it stops at has one failure more, and no other |
| Outbox.OutboxDrains | src/acemq_amqp/patterns/outbox.py:377-458 | after as many sweeps as records times attempts nothing waits: each record was published or is retired with its message, after as many failures as make up its attempts |
| Outbox.InMemoryOutboxStore.Add | src/acemq_amqp/patterns/outbox.py:174-180 | a second write of an id changes nothing |
| Outbox.InMemoryOutboxStore.Pending | src/acemq_amqp/patterns/outbox.py:182-192 | what is offered is every record still to be tried, once each and oldest first, as far as the limit goes |
| Outbox.InMemoryOutboxStore.RecordFailure | src/acemq_amqp/patterns/outbox.py:198-212 | one record has one failure more, and nothing is removed |
| Outbox.OutboxRelay.Sweep | src/acemq_amqp/patterns/outbox.py:350-458 | the loop publishes each record's message under its own id in order, stops at the first failure and raises then, and lessens what is left to try |
| OutboxRuns.EveryRecordIsSomewhere | src/acemq_amqp/patterns/outbox.py:174-225 | with crashes and failing store calls, every id ever added is in the table with its message or was stored by the broker |
| OutboxRuns.UndisturbedIsSwept | src/acemq_amqp/patterns/outbox.py:377-458 | a sweep nothing comes between goes through its batch in order, stores and removes every record the broker takes, counts the failure of the first it does not, and stops there, as `Swept` says |
| OutboxRuns.CrashDuplicates | src/acemq_amqp/patterns/outbox.py:397-458 | from any idle state a crash between publish and removal makes the next sweep store the message twice |
| OutboxRuns.RemovalsFollowTheOrder | src/acemq_amqp/patterns/sql.py:833-859 | with adds of newer records only, removals follow creation order over the whole run and pass over nothing that still waits |
| StreamPosition.Tracker.RecordDelivered | src/acemq_amqp/rabbitmq.py:433-435 | a delivery is counted before anything else and the argument moved to the oldest pending |
| StreamPosition.Tracker.RecordSettled | src/acemq_amqp/rabbitmq.py:437-442 | a settlement counts one fewer, never below none, and moves the argument |
| StreamPosition.ResumingSkipsNothing | src/acemq_amqp/rabbitmq.py:414-469 | over any run with reconnections and late settlements, every entry from the first received to the recorded offset was delivered and settled, and nothing pending lies below it |
| StreamPosition.ReconnectSkipsExactlyWhen | src/acemq_amqp/rabbitmq.py:414-449 | a reconnection passes over entries exactly when nothing was received yet and the original argument now starts further on |
| StreamPosition.NextCanSkip | src/acemq_amqp/rabbitmq.py:414-449 | a run in which it does |
| StreamPosition.GoesBackExactlyWhen | src/acemq_amqp/rabbitmq.py:433-449 | the recorded offset goes back exactly at a delivery from below it, and never at a settlement |
| StreamPosition.NeverGoesBackExactlyWhen | src/acemq_amqp/rabbitmq.py:433-449 | until the next reconnection the offset is safe from going back exactly when no redelivery is to come |
| StreamPosition.LateSettlementGoesBack | src/acemq_amqp/rabbitmq.py:433-449 | a run, with one settlement after a reconnection, in which it goes back |
| KeyedLocks.KeysAreGuarded | src/acemq_amqp/patterns/ordered.py:156-185 | over every interleaving, with waiters cancelled before or after they were woken and not yet gone: equal domains, exact counts, one lock object per key, at most one call inside and before all who still wait, and empty maps when nobody is left |
| KeyedLocks.FirstComeFirstServed | src/acemq_amqp/patterns/ordered.py:161-177 | while anybody waits for a free lock only the first of those can go in, no newcomer does, and the first in line can always move |
| KeyedLocks.ForgettingRefines | src/acemq_amqp/patterns/ordered.py:156-185 | each step is possible, and does the same, as with one lock per key for ever |
| KeyedLocks.ForgettingShowsNowhere | src/acemq_amqp/patterns/ordered.py:156-185 | so the runs are the same runs, with the same calls inside and waiting |
| KeyedLocks.Locks.Hold | src/acemq_amqp/patterns/ordered.py:161-170 | up to its first await `hold` counts the call and takes the lock exactly when it is free and everybody waiting was cancelled before being woken |
| KeyedLocks.Locks.Released | src/acemq_amqp/patterns/ordered.py:174-185 | leaving frees the lock and forgets the key with its last call |
| Ladder.ChooseRung | src/acemq_amqp/patterns/scheduler.py:428-432 | the search through the rungs takes the one specified |
| Ladder.RungFits | src/acemq_amqp/patterns/scheduler.py:129-135 | that is the longest of the rungs that does not overshoot |
| Ladder.DeliveredInTime | src/acemq_amqp/patterns/scheduler.py:418-432 | with hops at most `most` late, a message is delivered after its due time less a second and no later than its due time plus `most`, or at once if already due |
| Ladder.HopsAreFew | src/acemq_amqp/patterns/scheduler.py:418-432 | after no more hops than the whole hours to go and 28 |
| Ladder.HopsAreDigits | src/acemq_amqp/patterns/scheduler.py:418-432 | without latency the hops are the digits of the time to go, counted in rungs |
| Ladder.NoLadderIsShorter | src/acemq_amqp/patterns/scheduler.py:129-135 | without latency no sequence of rungs that does not overshoot takes fewer hops |
| Scheduler.NothingScheduledIsLost | src/acemq_amqp/patterns/scheduler.py:381-479 | whatever fails, channels lost under running tasks and schedulers that die among them, every message `at` returned for has a copy with its body and headers, on a declared rung, on the control queue or in hand, or at its own target with its body and content type |
| Scheduler.PromisedAsAsked | src/acemq_amqp/patterns/scheduler.py:349-379 | what `at` returned for is what its caller asked for |
| Scheduler.ReturnsWhenTaken | src/acemq_amqp/patterns/scheduler.py:349-479 | and `at` returns exactly when a publish of it, to a rung or to its target, was taken |
| Scheduler.NothingIsEarly | src/acemq_amqp/patterns/scheduler.py:418-479 | a message is at a target only if it was due, or less than a second from it, when it was looked at |
| Scheduler.WhatFailsGoesRound | src/acemq_amqp/patterns/scheduler.py:434-479 | a delivery that failed is tried again after the ten seconds of the retry rung, and a message is put back only when no rung took it |
| Scheduler.AckOnlyWhenStored | src/acemq_amqp/patterns/scheduler.py:434-479 | the control message is accepted exactly when a publish to a rung or the target was confirmed, routed and stored |
| Scheduler.Process.Deliver | src/acemq_amqp/patterns/scheduler.py:449-479 | unless it raises, the message is at its target under its own content type or on the retry rung |
| Scheduler.Process.Forward | src/acemq_amqp/patterns/scheduler.py:381-416 | exactly the messages without readable scheduler headers are rejected; an accepted one is at its target, on the retry rung, or on the longest rung that does not overshoot; what could not be moved is put back |
| RoutingSlips.AdvanceConserves | src/acemq_amqp/patterns/routingslip.py:220-228 | advancing keeps the itinerary, takes one step off what is left and stamps it |
| RoutingSlips.ComputeNames | src/acemq_amqp/patterns/routingslip.py:262-312 | the loop gives the names, or the error, specified |
| RoutingSlips.NamedExactlyWhen | src/acemq_amqp/patterns/routingslip.py:262-312 | a slip is written as names exactly when it has steps, all on one exchange, and each goes by one word without a comma as its name, its routing key or both |
| RoutingSlips.SplitJoins | src/acemq_amqp/patterns/routingslip.py:314-329 | names without commas joined by commas split into the same names |
| RoutingSlips.JsonReadsBack | src/acemq_amqp/patterns/routingslip.py:314-405 | the JSON form carries everything but the run identifier |
| RoutingSlips.DeclaredReadsBackExactlyWhen | src/acemq_amqp/patterns/routingslip.py:314-430 | the declared form gives back names, position and run exactly when no name has white space to trim and the envelope it is written on carries no JSON slip |
| RoutingSlips.ASpaceIsLost | src/acemq_amqp/patterns/routingslip.py:408-430 | a name with a space in front comes back without it |
| RoutingSlips.AStaleSlipIsFollowed | src/acemq_amqp/patterns/routingslip.py:314-464 | a declared route written on an envelope with a JSON slip already on it reads back as that slip |
| RoutingSlips.OneHop | src/acemq_amqp/patterns/routingslip.py:536-637 | a hop keeps form, itinerary, run, age, conversation, application headers and unknown extensions over the wire, with one step fewer to go, under a new identifier caused by the old one, as a first attempt without error |
| RoutingSlips.TravelLeads | src/acemq_amqp/patterns/routingslip.py:536-637 | what is rejected, what is retried, where a run ends and what is sent on, for every reading and every result of the work |
| RoutingSlips.UnreadableSlipIsRejected | src/acemq_amqp/patterns/routingslip.py:381-405 | a slip that cannot be read is rejected, and not passed over for a declared route |
| RoutingSlips.PositionsRead | src/acemq_amqp/patterns/routingslip.py:408-430 | a declared route is read when it has a name, at its position, and past its end as finished |
| RoutingSlips.FormIsSwitched | src/acemq_amqp/patterns/routingslip.py:536-637 | a stop told to write the other form does, and the next stop reads the steps that are left, or rejects a route that has no such form |
| RoutingSlips.RunVisitsTheItinerary | src/acemq_amqp/patterns/routingslip.py:536-637 | a run visits the steps of its slip in order, once each, and ends |
| RoutingSlips.StartedRunVisits | src/acemq_amqp/patterns/routingslip.py:433-637 | a run begun by `start`, in either form and with an envelope of the caller's, visits the steps of the slip it was given, in order and once each, provided that what is written reads back whole |
| Replays.ReplayConserves | src/acemq_amqp/patterns/replay.py:163-202 | for a destination that does not feed the source, on every exit, a filter that raises and a cancellation at any await included, the queue as it began is, message for message and as often, what is back and what was moved; each moved message has its own copy there, with its bytes, its key or the plan's, one replay more, and its envelope but for a first attempt without error when the pass restarts, and nothing else lands but perhaps one of the message the pass was cut short at; the limit holds, everything moved is counted but for one whose acknowledgement was cut short, messages are looked at in order and once each, and draining looked at all |
| Replays.EndsForItsReason | src/acemq_amqp/patterns/replay.py:163-200 | the pass ends for the reason it gives, at the first turn there is one: the limit once that many were moved, the deadline, an empty queue, each without touching anything, or what it was cut short by |
| Replays.ReplayEnds | src/acemq_amqp/patterns/replay.py:163-200 | and the pass ends within one turn more than there are messages |
| Replays.ReplayDrainsExactlyWhen | src/acemq_amqp/patterns/replay.py:163-200 | for any destination, without limit or failure the pass ends exactly when no message goes round for ever |
| Replays.SetAsideGoesRound | src/acemq_amqp/patterns/replay.py:267-271 | what the consumer set aside goes round for ever under the default arguments |
| Replays.Session.Replay | src/acemq_amqp/patterns/replay.py:163-202 | the loop and its `finally` do what the turns specify on every exit |

## Left out

- RetriesEnd: a message published twice under one id is run for each copy; the count is stated for runs in which none is, and so is `EveryMessageComesToRest`.
- OneHandlerAtATime: clocks of different nodes are one monotone clock, and each SQL statement is atomic; a handler cancelled from outside and a store with only `first_time` are not modelled.
- NoMessageIsLost: a queue is deleted only when it is empty, the source queue and its binding to the retry exchange stay, and delivery limits of the broker are not modelled.
- EveryHopIsLossless: arrivals are in the normal form every envelope this library publishes is read in; a foreign message with a route position or run and no route, which `ReadableTrips` covers for one trip, or with no identifier or first-seen time, which is read under new ones at each delivery, is not admitted to the machine.
- RemovalsFollowTheOrder: one relay at a time; records of one age may go in any order, where the SQL store goes by id and the in-memory one by insertion; an operator resetting `attempts` is not modelled.
- NothingScheduledIsLost: a message keeps its headers from hop to hop, which `TripSettles` says of application headers over the wire and the scheduler's machine takes as given; the rungs' binding to the control queue stays, and a due time beyond what a date can hold is not modelled; `at` takes whole milliseconds.
- ClosingIsClean: a worker may take any queued delivery and not only the oldest, which allows more runs than the queue does.
- StartedRunVisits: the publish of `start` itself is one that arrives; `unslipped`, with which a pipeline's own step takes a message that carries no slip, is not modelled.
- ReplayConserves: messages other producers add during a pass are not modelled, and returns reach the broker when the connection goes at the latest.
- The pause before giving back a message that could not be set aside, and the age written out in the reason when one is too old, are not modelled.
- Jitter is any delay, passed in as a parameter; durations are unbounded integers, and overflow of very long schedules is not modelled.
- Header names are sorted into known, reserved and application names, and JSON, `int()` and white space are parameters with the laws the proofs need.
- Interceptors, middleware, metrics, tracing and log messages change no state here, and are absent, with the scheduler's three counters.
- Codecs, TLS, credentials, channels and reconnection plumbing of the transport are foreign calls; a publish ends in one of the ways a broker can answer.
- Request and reply, sagas, consumer groups, the blocking facade, partitioning of keys and the schema registry are not modelled.
- The wait for declined messages to show on the queue after a replay, and the deadline's clock, are inputs of a turn.
