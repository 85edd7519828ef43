# ZapMQ: a verified model of the broker, the package transport and the line comparison

The project models three parts of ZapMQ and proves what they promise.

**The broker** (`src/ZapMQ.Core`). Queues serve consumers that ask (the 1.x way) and consumers that get
messages pushed, at the same time. It is modelled twice.

- `MessageQueues.MessageQueue`, `Consumers.Consumer` and `DeadLetters.DeadLetterStore` are classes with
  the fields, loops and branches of the originals. Each method is proved against a function of
  `QueueOperations` on a queue as a value. A queue value carries the history of everything that happened
  to its messages. The invariant `QueueModel.QueueInv` says that every message is where its history
  says, that every history makes sense (`Messages.Advance` is the life of one message, step by step),
  that the counters balance, and that the line is a block of messages delivered before, followed by the
  others in the order of publication. At most one delivery plus one per redelivery, one answer at most,
  and the order of first deliveries follow from it.
- `Interleaving` is the broker with all its threads. A step is one access to what is shared outside the
  lock of a queue: the work done under a lock up to the next such access, a compare-and-swap on a
  consumer, a write of what it holds, a look-up of a queue by name. The dispatch loop is cut at each
  consumer it tries, the answer of a consumer in two, a disconnection into all its parts. Threads may
  hold instances of queues that were let go meanwhile. `BrokerTheorems` states what holds in every run.
  `DispatchAlone` connects the two levels. `Retirement` says when a queue is let go, and `Answers` what is
  known of each message and to whom its answer goes, both told by the steps of a run (`RoomSteps`, `Moments`,
  `Origins`).
- `Brokers.Broker.Free` and `Fairness` are the round a released consumer makes through its queues;
  `Overtaken` says which steps of the interleaved broker come before it. `PublicationOrder` says when the
  line is in order.

**The package transport** (`src/ZapMQ.Server/Transport`). `Packages` is a state machine of the twelve
statuses, with a machine that answers applied, refused or not at all, and a service that may stop
between any two steps. `PackageLifecycle`, `PackageAttempts`, `PackageScripts`, `PackagePiles`,
`PackageUndo` and `PackageReverts` prove what holds in every run, and `PackagePlans` reads off the fields of
the records what is put back and what comes of each step. `TransportServices.TransportService`
has the loops of the original, each proved to take the steps of the machine. `Transfers` is the way of a
package between two environments over requests and answers that are lost or late, `Deliveries` what the
sender may not know, `TransportRoutes` the door and the sender. `Arranging` is the order in which the items of a package are applied.

**The line comparison** (`src/ZapMQ.Panel/src/app/core/diff.ts`). `Diff` has the trimming, the table of
32-bit cells and the walk through it; `Subsequences` says what a longest common subsequence is, and
`TextLines` how a text is cut into lines, whatever its line endings are.

## Where the code and its words differ

- The comment at src/ZapMQ.Core/MessageQueue.cs:39 says that the head of the line is the oldest message.
  After two redeliveries it need not be (`PublicationOrder.PutBackTheOtherWayRound`). It is exactly when it
  was published before the waiting messages that were delivered before (`PublicationOrder.LineInOrder`).
- An answer that is refused may have moved its message out of the line already.
  `QueueOperations.RefusedYetMoved` says exactly when.
- The comparison is said to find the longest common subsequence. Above the cut-off it does exactly when
  the trimmed texts have no line in common (`Diff.Compare`).
- A package that ends reverted need not have its targets as they were when its items were applied
  (`PackageTwoGoes.RevertedInTwoGoes`). The target of an item is exactly when the item still stood when the
  last putting back began, or the records showed over its target what it had found
  (`PackageReverts.RevertedLeavesAsFound`, `PackageReverts.ToldBeforehand`).
- A package that failed is said to wait only when it is known for sure that nothing was applied. After a
  stop during the first item it waits without that (`PackageAttempts.StoppedAtTheFirst`); it is known
  exactly when a result is on record (`PackageAttempts.WaitsKnownForSure`).
- When needs go round in a circle, items without needs are placed ahead of definitions
  (`Arranging.CircleLetsOthersAhead`). The layers, and needs before what needs them, hold exactly when they
  do not (`Arranging.LayersComeInOrder`, `Arranging.NeedsComeFirst`).
- The comment at src/ZapMQ.Core/Broker.cs:443-446 says that no queue starves. None does among uninterrupted
  rounds (`Fairness.NoneStarves`). But a consumer may be taken before its round, and one can starve
  (`Overtaken.WaitsForEver`); `Fairness.StarvesExactly` says how often that has to happen.
- The comment at src/ZapMQ.Server/Transport/TransportStore.cs:407-410 says that a package another environment
  received is not removed. It can be when the answer was lost (`Deliveries.ReceivedYetRemoved`); it cannot
  exactly when the delivery is on record, or it arrived or is not closed (`PackageLifecycle.RemovedExactly`).

- The comment at src/ZapMQ.Core/MessageQueue.cs:378-381 says that a sweep reports a queue that can be let go at
  most once. Swept again, it is reported again (`Retirement.LetGoExactly`).
- A line that ends with a carriage return, before an empty one that ends with a line feed, is not told from one
  line that ends with both; `TextLines.SplitOfWritten` says exactly which texts are split into the lines they were made of.

## Assumptions

- One clock that does not go back, fixed during an operation. Message ids are never given twice.
- `Bind`, `Unbind` and `Disconnect` of one consumer come one after the other, as the callers see to
  (src/ZapMQ.Server/V2/V2Connection.cs:50-62, src/ZapMQ.Server/V2/V2Connection.cs:101-128,
  src/ZapMQ.Server/Panel/TraceHub.cs:216-237). Those of different consumers may overlap, and so may
  everything else.
- The settings of a queue change in one step, and the dispatch that follows is another.
- Items of a package are numbered by their place, as closing a package numbers them. For the layers of
  `Arranging` only objects of the database are defined, and only they and scripts use anything, as closing
  a package makes the items (src/ZapMQ.Server/Transport/TransportService.cs:463-505).
- For `PackageUndo` and `PackageReverts` a run is plain: the service is not interrupted, the machine
  answers definitely and does what it says, it keeps a copy of the files it replaces, result times
  increase, a package has one item per target and no scripts, and nobody else touches the targets. For
  `PackageScripts` no script comes twice in one package. The other results about packages hold with
  crashes and any answers.
- SHA-256 and the fingerprint of a script are taken for the content itself.

## Model

| member | source | states |
|---|---|---|
| BrokerTheorems.OneUnconfirmedMessage | src/ZapMQ.Core/Broker.cs:447-467 | In every run of the interleaved broker a consumer owns at most one message in all queues together, a free consumer owns none, and what it says it holds is what it owns, but for the moment its own answer is being stored |
| BrokerTheorems.DisconnectionSettles | src/ZapMQ.Core/Broker.cs:277-302 | Once a disconnection returned, in every continuation of the run the consumer is closed, bound nowhere, owns no message of any unlocked queue, and nothing is ever pushed to it again |
| BrokerTheorems.NoLostWakeUp | src/ZapMQ.Core/Broker.cs:188-256 | When every operation that began has completed, no unpaused queue has both a message that may be delivered and a free consumer bound to it |
| BrokerTheorems.AlwaysOnTheWay | src/ZapMQ.Core/Broker.cs:336-352 | At every point of every run, whenever a message and a free consumer bound to its queue are both there, some thread is still on its way to see to them |
| BrokerTheorems.InUseIsRegistered | src/ZapMQ.Core/Broker.cs:407-413 | An instance of a queue that holds a message or a consumer is the one registered under its name |
| BrokerTheorems.RetiredForever | src/ZapMQ.Core/MessageQueue.cs:382-416 | An instance that was let go is empty and unbound, stays so in every continuation, and nothing happens in it any more |
| BrokerTheorems.EveryMessageIsAccountedFor | src/ZapMQ.Core/MessageQueue.cs:73-325 | In every queue of every run each message is in one place or over, is delivered once and once more per redelivery at most, is answered once at most and with the last answer, the counters balance, and first deliveries follow publication |
| BrokerTheorems.OneQueueEach | src/ZapMQ.Core/Broker.cs:106-129 | An id lives in one queue only, so that what holds of a message in its queue holds of it in the broker |
| BrokerRuns.Reached | src/ZapMQ.Core/Broker.cs:106-302 | Every world that any interleaving can reach keeps the invariant that says who owns what, who is registered, and which thread is how far |
| BrokerRuns.KeepStep | src/ZapMQ.Core/Broker.cs:106-302 | Each of the steps keeps that invariant |
| BrokerSafety.Frame | src/ZapMQ.Core/Consumer.cs:53-57 | When one queue, one consumer and one thread change, nothing that the others rely on does |
| BrokerSteps.Move | src/ZapMQ.Core/MessageQueue.cs:155-223 | A consumer may pass from free to acquired, to owner, and on to being released, touching one queue and one thread |
| BrokerSteps.KeepConfirm | src/ZapMQ.Core/MessageQueue.cs:181-194 | Confirming settles the one message the consumer owned and leaves a thread that is to release it |
| BrokerSteps.KeepAnswerEnd | src/ZapMQ.Core/MessageQueue.cs:199-223 | So does its answer, which writes what the consumer holds before it lets go of the message |
| BrokerBindings.KeepLook | src/ZapMQ.Core/Broker.cs:294-302 | What the consumer holds is read only when it is bound nowhere, so that nothing can be assigned to it afterwards |
| BrokerBindings.KeepAbandonHeld | src/ZapMQ.Core/MessageQueue.cs:300-325 | A disconnection takes from the consumer the message it owned, and no other |
| BrokerWakeUps.WakeStep | src/ZapMQ.Core/Broker.cs:447-467 | Each step leaves every message that could be delivered with a thread on its way to it |
| BrokerWakeUps.WakeTry | src/ZapMQ.Core/MessageQueue.cs:497-509 | The dispatch loop gives up only after each bound consumer was tried, and one that was freed meanwhile brings its own thread |
| BrokerHistories.HistoryNext | src/ZapMQ.Core/MessageQueue.cs:73-325 | A history only goes on; a message enters by being published and is pushed only to the consumer acquired for it |
| DispatchAlone.LoopIsDispatch | src/ZapMQ.Core/MessageQueue.cs:155-176 | Run without interruption, the small steps of the dispatch loop leave the queue as one dispatch does |
| Retirement.LetGoExactly | src/ZapMQ.Core/MessageQueue.cs:382-416 | In every run a sweep lets go of a queue exactly when nobody is bound to it and it was empty for longer than its settings allow: since a step so far back at which it became empty or was looked at, and at every moment after |
| Retirement.NothingHappensMeanwhile | src/ZapMQ.Core/MessageQueue.cs:545-549 | For as long as it is empty nothing is published there, put back or done about any message |
| Retirement.OnlySweepsLetGo | src/ZapMQ.Core/MessageQueue.cs:382-416 | No other step of any run lets a queue go |
| Answers.KnownInEveryRun | src/ZapMQ.Core/MessageQueue.cs:73-98 | In every run whatever waits or is in flight is as it was published, with its own time to live and the moment it came; its answer goes to the consumer that asked for it last, or to the one it was published with; and it holds the last answer given, with the moment of it |
| Answers.NoAnswerIsLeftLying | src/ZapMQ.Core/MessageQueue.cs:519-530 | In every run no answer is kept in a queue while the consumer that waits for it is connected |
| Answers.SentToWhoAskedLast | src/ZapMQ.Core/MessageQueue.cs:519-530 | In every run an answer is sent only to the consumer that asked for it last, which is not closed at that step, and it is the last answer given |
| Answers.CollectedNext | src/ZapMQ.Core/MessageQueue.cs:257-268 | An answer that is kept is handed to the next one that collects it, and its message is gone then |
| Origins.AnsweredHeld | src/ZapMQ.Core/MessageQueue.cs:199-223 | The answer of the holder is sent, and the message gone, exactly when somebody waits for it who is not closed; otherwise it is kept with the message; nothing else changes |
| Origins.AnsweredAsked | src/ZapMQ.Core/MessageQueue.cs:229-255 | Likewise the answer given by asking, which is taken exactly when nobody holds the message and it was answered before or is young enough |
| Origins.AwaitedAll | src/ZapMQ.Core/MessageQueue.cs:274-294 | Every message asked for that can be answered goes to the consumer from then on; an answer already there is kept only when the consumer is closed, and sent to nobody else |
| Brokers.Broker.Free | src/ZapMQ.Core/Broker.cs:447-467 | Whoever else is free, a consumer that is released ends up with a live message of one queue, those before it in the round having nothing left for it, or stays free and none of its queues has anything for it. With nobody else free it gets the oldest live message of the first queue, going round from the one after the last that served it, that has one |
| Brokers.DispatchToEach | src/ZapMQ.Core/MessageQueue.cs:155-176 | Whoever else is free, a dispatch gives a free consumer that is bound one of the live messages, or leaves none |
| Brokers.DispatchToOne | src/ZapMQ.Core/MessageQueue.cs:155-176 | With one free consumer a dispatch hands out one message, the oldest that may be delivered, to it |
| Fairness.NoneStarves | src/ZapMQ.Core/Broker.cs:447-467 | A queue that can serve at each of as many completions as the consumer has queues serves at one of them |
| Fairness.NoneStarvesInARow | src/ZapMQ.Core/Broker.cs:447-467 | The same of completions as `Brokers.Broker.Free` reports them, each going on from the queue that served last |
| Fairness.MovesUp | src/ZapMQ.Core/Broker.cs:447-467 | While another queue serves, the one that waits comes nearer in the round |
| Fairness.StarvesExactly | src/ZapMQ.Core/Broker.cs:442-467 | Where other threads may take the consumer between its release and its round, a queue that could serve in every round can be kept from it exactly when the consumer is taken in time again and again: before more rounds than queues come first, and then before as many in a row as there are other queues |
| Overtaken.WhoDispatches | src/ZapMQ.Core/MessageQueue.cs:155-176 | Which steps of the interleaved broker begin a dispatch, and that until it ends nothing but its own steps and new settings change the queue |
| Overtaken.SomebodyBegan | src/ZapMQ.Core/MessageQueue.cs:155-176 | In every run each dispatch was begun by a round or by another thread, so that each message a consumer is given is by a round or a taking |
| Overtaken.WaitsForEver | src/ZapMQ.Core/Broker.cs:442-467 | For every n a run from the start in which one consumer is bound to two queues, one of which holds a live message for it from some point on and is never touched again, while the other serves it n times by takings: the second starves |
| Messages.DeliveredOnce | src/ZapMQ.Core/MessageQueue.cs:105-127 | A message is delivered at most once and once more for each time it was put back |
| Messages.AnswerHandedOnce | src/ZapMQ.Core/MessageQueue.cs:511-530 | An answer is handed over at most once, pushed or collected, and it is the last one written |
| Messages.OverIsFinal | src/ZapMQ.Core/MessageQueue.cs:181-325 | Nothing more happens to a message whose life is over |
| Messages.NoneDeliveredAgain | src/ZapMQ.Core/MessageQueue.cs:312-317 | With nothing put back, the whole history of deliveries is the ordered one of first deliveries |
| Messages.RankIsPast | src/ZapMQ.Core/MessageQueue.cs:82-93 | Whatever was published was published before what comes next |
| Messages.CountersCount | src/ZapMQ.Core/MessageQueue.cs:47 | Each counter tells how often in the history what it counts happened |
| QueueModel.EnterKeeps | src/ZapMQ.Core/MessageQueue.cs:73-98 | Publishing keeps places, lives, the balance of the counters and the order of the line |
| QueueModel.LeaveLineKeeps | src/ZapMQ.Core/MessageQueue.cs:437-489 | So does taking a message out of the line for good, where only the head may be delivered |
| QueueModel.TakeOffKeeps | src/ZapMQ.Core/MessageQueue.cs:155-176 | So does moving it from the line into flight |
| QueueModel.AlterKeeps | src/ZapMQ.Core/MessageQueue.cs:511-517 | So does changing one in flight |
| QueueModel.LandKeeps | src/ZapMQ.Core/MessageQueue.cs:181-194 | So does ending one in flight |
| QueueModel.PutBackKeeps | src/ZapMQ.Core/MessageQueue.cs:312-317 | So does putting one back at the head, which was delivered before |
| QueueModel.OneHappening | src/ZapMQ.Core/MessageQueue.cs:42-43 | One thing that happens to one message leaves the place and the life of every other in agreement |
| QueueOperations.RefusedYetMoved | src/ZapMQ.Core/MessageQueue.cs:229-255 | An answer that is refused has changed the queue exactly when it was for a waiting message past its retention |
| PublicationOrder.LineInOrder | src/ZapMQ.Core/MessageQueue.cs:39-40 | At every point the line is in the order of publication exactly when the messages in it that were delivered before are; its head is the oldest exactly when it is older than those |
| PublicationOrder.PutBackIsOldest | src/ZapMQ.Core/MessageQueue.cs:312-317 | A message that is put back at the head is the oldest of the line exactly when it was published before the waiting ones that were delivered before |
| PublicationOrder.NonePutBackInOrder | src/ZapMQ.Core/MessageQueue.cs:39-40 | As long as nothing was put back the line is in the order of publication |
| PublicationOrder.PutBackTheOtherWayRound | src/ZapMQ.Core/MessageQueue.cs:312-317 | Two consumers bind, two messages are published and pushed to one each, and the consumers go in the same order: the head of the line is then not the oldest, whatever the messages and the settings that redeliver |
| QueueOperations.AnswerAskedKeeps | src/ZapMQ.Core/MessageQueue.cs:229-255 | Answering by asking keeps the invariant, refused or not |
| QueueOperations.AnswerHeldKeeps | src/ZapMQ.Core/MessageQueue.cs:199-223 | So does the answer of the consumer that holds the message |
| QueueOperations.AwaitKeeps | src/ZapMQ.Core/MessageQueue.cs:274-294 | So does routing answers to a consumer that came back |
| QueueOperations.SweepKeeps | src/ZapMQ.Core/MessageQueue.cs:382-416 | So does a sweep, in whatever order the messages in flight come |
| QueueOperations.DispatchKeeps | src/ZapMQ.Core/MessageQueue.cs:155-176 | So does a dispatch |
| QuietSteps.QuietAsk | src/ZapMQ.Core/MessageQueue.cs:229-255 | Answering by asking takes nothing from a consumer and adds nothing to be delivered |
| Expiry.TakeGivesTheOldestLive | src/ZapMQ.Core/MessageQueue.cs:105-127 | Who asks gets the oldest message whose own time and the retention are not over, which has left the line then; those before it are buried once each; it gets nothing only when there is none |
| Expiry.DispatchServes | src/ZapMQ.Core/MessageQueue.cs:155-176 | A dispatch serves the live messages oldest first and no consumer twice, and stops only when none of them or no free consumer is left |
| Expiry.SweepKeepsTheLive | src/ZapMQ.Core/MessageQueue.cs:382-394 | A sweep leaves exactly the live messages in their order and buries each other one once, as expired when its own time is over and as not consumed otherwise |
| Expiry.SweepDropsTheStale | src/ZapMQ.Core/MessageQueue.cs:396-409 | Of the messages in flight it goes through, a sweep gives up exactly those nobody processes that waited longer than the retention: for their answer since they came, or for their collector since the answer |
| Expiry.SweptExactly | src/ZapMQ.Core/MessageQueue.cs:382-416 | A sweep as a whole does both to all messages of the queue and leaves the others as they are |
| Expiry.FirstFreeIs | src/ZapMQ.Core/MessageQueue.cs:497-509 | Going round finds the first free consumer from the turn on, and finds one whenever there is one |
| MessageQueues.MessageQueue.constructor | src/ZapMQ.Core/MessageQueue.cs:19 | A queue begins empty, unbound and with no history |
| MessageQueues.MessageQueue.TryPublish | src/ZapMQ.Core/MessageQueue.cs:73-98 | The message enters at the end and the line is dispatched; a queue that was let go refuses and stays as it is |
| MessageQueues.MessageQueue.Take | src/ZapMQ.Core/MessageQueue.cs:105-127 | The caller gets what is offered, the dead at the head are buried, and a paused queue gives nothing |
| MessageQueues.MessageQueue.Bind | src/ZapMQ.Core/MessageQueue.cs:129-141 | The consumer joins once and the line is dispatched with it among the free ones |
| MessageQueues.MessageQueue.Unbind | src/ZapMQ.Core/MessageQueue.cs:143-150 | The consumer is out, the others stay in their order, and the turn starts over |
| MessageQueues.MessageQueue.Dispatch | src/ZapMQ.Core/MessageQueue.cs:155-176 | The queue, the store, the deliveries and every consumer end up as the specified dispatch says |
| MessageQueues.MessageQueue.Confirm | src/ZapMQ.Core/MessageQueue.cs:181-194 | True exactly when the consumer holds the message, which is then settled |
| MessageQueues.MessageQueue.RespondHeld | src/ZapMQ.Core/MessageQueue.cs:199-223 | True exactly when the consumer holds the message. The answer settles a plain one; that of an RPC one is handed, once, to whoever waits for it and is not closed, and the message is gone; otherwise it is kept with the message for whoever collects it |
| MessageQueues.MessageQueue.RespondAsked | src/ZapMQ.Core/MessageQueue.cs:229-255 | True exactly when the message is nobody's and answered before or young enough, where one that waits is taken aside first either way. Then the answer is handed, once, to whoever waits for it and is not closed, and the message is gone; otherwise it is kept |
| MessageQueues.MessageQueue.TakeResponse | src/ZapMQ.Core/MessageQueue.cs:257-268 | An answer that is there is returned and its message gone, or nothing happens |
| MessageQueues.MessageQueue.Await | src/ZapMQ.Core/MessageQueue.cs:274-294 | Every message found is routed anew; exactly the answers already there are handed over, each once, when the consumer is not closed, and none otherwise; the count is of those found |
| MessageQueues.MessageQueue.Abandon | src/ZapMQ.Core/MessageQueue.cs:300-325 | What the consumer held goes back to the head and is dispatched, or is buried; the consumer holds it no more |
| MessageQueues.MessageQueue.Purge | src/ZapMQ.Core/MessageQueue.cs:348-358 | Everything that waits is thrown away and counted, and nothing else changes |
| MessageQueues.MessageQueue.Contains | src/ZapMQ.Core/MessageQueue.cs:372-376 | True exactly when the message waits or is in flight |
| MessageQueues.MessageQueue.Sweep | src/ZapMQ.Core/MessageQueue.cs:382-416 | The queue is swept as `Expiry.SweptExactly` says, the letters are told to the store, and it says whether the queue is let go, which `Retirement.LetGoExactly` characterises |
| MessageQueues.MessageQueue.FirstDeliverable | src/ZapMQ.Core/MessageQueue.cs:437-445 | The dead the line begins with are buried and told to the store, and a live head is found when there is one |
| MessageQueues.MessageQueue.NextFreeConsumer | src/ZapMQ.Core/MessageQueue.cs:497-509 | The first free consumer, going round from the turn on, is acquired and the turn moves behind it; none exactly when none is free; nobody else changes |
| MessageQueues.MessageQueue.StoreResponse | src/ZapMQ.Core/MessageQueue.cs:511-517 | The answer is written and only the first one counted |
| MessageQueues.MessageQueue.PushResponse | src/ZapMQ.Core/MessageQueue.cs:523-530 | The answer is handed over and the message gone exactly when somebody waits for it who is not closed; otherwise nothing changes |
| MessageQueues.MessageQueue.FindPending | src/ZapMQ.Core/MessageQueue.cs:532-540 | Where the message waits |
| Consumers.Consumer.TryAcquire | src/ZapMQ.Core/Consumer.cs:53 | Acquired exactly when free |
| Consumers.Consumer.Release | src/ZapMQ.Core/Consumer.cs:55 | Free again only when busy: closed is for good |
| Consumers.Consumer.Close | src/ZapMQ.Core/Consumer.cs:57 | Closed from any state |
| DeadLetters.PrunedIsTheYoungNewest | src/ZapMQ.Core/DeadLetterStore.cs:44-59 | With deaths in order, pruning leaves exactly the letters that are among the newest and young enough |
| DeadLetters.PrunedExactly | src/ZapMQ.Core/DeadLetterStore.cs:44-59 | A letter stays exactly when it is young enough and there are fewer younger ones than are kept |
| DeadLetters.AddedLast | src/ZapMQ.Core/DeadLetterStore.cs:26-42 | A letter that is added comes last, the oldest make room for it, and the list stays oldest first |
| DeadLetters.DeadLetterStore.Add | src/ZapMQ.Core/DeadLetterStore.cs:26-42 | The letter is kept as the newest of its queue unless nothing is kept, and no list is left empty |
| DeadLetters.DeadLetterStore.Prune | src/ZapMQ.Core/DeadLetterStore.cs:44-59 | Every list is pruned to its own limits and an empty one goes |
| DeadLetters.DeadLetterStore.Remove | src/ZapMQ.Core/DeadLetterStore.cs:91-110 | The first letter of that id is taken out and returned, and a list that is empty then goes |
| DeadLetters.DeadLetterStore.Clear | src/ZapMQ.Core/DeadLetterStore.cs:112-116 | The letters of a queue are counted and gone |
| Diff.Compare | src/ZapMQ.Panel/src/app/core/diff.ts:18-76 | The comparison spells both texts with their numbers, keeps as much as any common subsequence could exactly when the table was small enough or the trimmed texts share no line, and keeps every line exactly when the texts have the same lines |
| Diff.CompareLines | src/ZapMQ.Panel/src/app/core/diff.ts:18-76 | What is kept is as long as the longest common subsequence of the whole texts, or what is trimmed of it above the cut-off |
| Diff.FillTable | src/ZapMQ.Panel/src/app/core/diff.ts:48-54 | Each cell of the table of 32-bit numbers holds the longest common subsequence of the rests, without wrapping |
| Diff.Walk | src/ZapMQ.Panel/src/app/core/diff.ts:55-69 | The walk through the table spells both middles and keeps as much as it can |
| Diff.Trim | src/ZapMQ.Panel/src/app/core/diff.ts:21-30 | The two texts are cut where they stop being the same from both ends |
| Diff.Replace | src/ZapMQ.Panel/src/app/core/diff.ts:39-45 | Above the cut-off everything goes out and everything comes in |
| Diff.MinimalIffLongest | src/ZapMQ.Panel/src/app/core/diff.ts:17-18 | A comparison is minimal exactly when it keeps the longest common subsequence |
| Subsequences.Bounded | src/ZapMQ.Panel/src/app/core/diff.ts:47-54 | No common subsequence is longer than what the recurrence of the table computes |
| Subsequences.Attained | src/ZapMQ.Panel/src/app/core/diff.ts:47-54 | And some common subsequence is as long |
| Subsequences.LongestOfTrimmed | src/ZapMQ.Panel/src/app/core/diff.ts:21-30 | Trimming what both begin and end with takes exactly that much off the longest |
| TextLines.CutIsFaithful | src/ZapMQ.Panel/src/app/core/diff.ts:15 | Cutting a text loses nothing and leaves no line break in a line |
| TextLines.CutOfJoined | src/ZapMQ.Panel/src/app/core/diff.ts:15 | Lines put together and cut again are the same lines |
| TextLines.SplitOfWritten | src/ZapMQ.Panel/src/app/core/diff.ts:15 | Lines put together with any mix of line endings, with or without one after the last, are split into those lines again exactly when no carriage return is followed by the line feed of an empty line and the last line is not an empty one without an ending |
| TextLines.SplitIsPlain | src/ZapMQ.Panel/src/app/core/diff.ts:15 | No line holds a line ending of any kind |
| TextLines.OnlyEndingsDiffer | src/ZapMQ.Panel/src/app/core/diff.ts:15 | Texts that differ only in their line endings have the same lines, and so compare as all kept |
| PackageLifecycle.StandingMeansApplied | src/ZapMQ.Server/Transport/TransportService.cs:781-859 | Crashes included, a result stands only in a package that is being applied, was applied or is being put back; an applied one has every item standing; one that waits, is approved or closed has none |
| PackageLifecycle.NothingStandingIsForgotten | src/ZapMQ.Server/Transport/TransportService.cs:1179-1186 | No step discards a result that stands, neither a new application nor a deletion nor a recovery; only putting it back ends it |
| PackageLifecycle.NextOk | src/ZapMQ.Server/Transport/TransportService.cs:781-1291 | Every step, a stop of the service at any point among them, keeps the records sound |
| PackageLifecycle.RevertedOk | src/ZapMQ.Server/Transport/TransportService.cs:886-889 | The status after putting back tells what stands |
| PackageLifecycle.AppliedOk | src/ZapMQ.Server/Transport/TransportService.cs:1279-1282 | So does the status after applying, and after an interrupted one |
| PackageLifecycle.PlanIs | src/ZapMQ.Server/Transport/TransportService.cs:911-967 | The plan names items that stand, can be put back and have nothing applied over them, the last first |
| PackagePlans.PlannedExactly | src/ZapMQ.Server/Transport/TransportService.cs:911-967 | An item is planned to be put back exactly when, by the fields of the records, it was applied and not put back, no other package did anything to the same thing later that stands, it is no script, no table that was defined or dropped, and what it takes is there; the last applied first |
| PackagePlans.RevertExactly | src/ZapMQ.Server/Transport/TransportService.cs:973-979 | Putting back can be asked for exactly when the package was applied, in part or put back in part, and some item can be put back |
| PackagePlans.NeverPutBack | src/ZapMQ.Server/Transport/TransportService.cs:938-948 | In no run is the machine asked to put back a script or a table that was defined or dropped, or what was not applied or is put back already; after the first item that is not put back it is asked nothing more |
| PackagePlans.EndedSo | src/ZapMQ.Server/Transport/TransportService.cs:886-889 | When putting back ends the package is reverted exactly when nothing of it stands, in part exactly when something stands and something was put back or may have been, and applied again exactly when all stands untouched |
| PackagePlans.FinishedSo | src/ZapMQ.Server/Transport/TransportService.cs:1279-1282 | When applying ends it is applied exactly when every item was, failed exactly when there is an item and none was, and partial otherwise |
| PackagePlans.TriedExactly | src/ZapMQ.Server/Transport/TransportService.cs:1179-1276 | The next item is tried exactly as long as every one before it was applied |
| PackagePlans.RecordedSo | src/ZapMQ.Server/Transport/TransportService.cs:1222-1276 | What is put on record of an item: how it went and when, and what was at its target before, unless it is a script or files of which no copy was kept; of a skipped one nothing changes |
| PackagePlans.AfterAStop | src/ZapMQ.Server/Transport/TransportService.cs:839-859 | What a stop makes of every package: what was being put back is not known to be, and each status follows from what is on record |
| PackagePlans.ApprovedExactly | src/ZapMQ.Server/Transport/TransportService.cs:781-802 | Approved can be exactly what waits, was put back altogether, was made here and only closed, or failed on a refusal, when no version of its line here is newer |
| PackagePlans.RefusedExactly | src/ZapMQ.Server/Transport/TransportService.cs:804-816 | Refused can be exactly what arrived and waits; an approval goes back to waiting or closed by where the package came from |
| PackagePlans.ArrivedSo | src/ZapMQ.Server/Transport/TransportStore.cs:352-405 | What is made here is closed and what arrives waits; exactly the older waiting ones of its line are superseded, and nothing else changes |
| PackagePlans.OneAtATime | src/ZapMQ.Server/Transport/TransportService.cs:1110-1119 | One package is applied or put back at a time, and only what was approved, or is to be put back |
| PackageLifecycle.ApprovalTakenBack | src/ZapMQ.Server/Transport/TransportService.cs:804-816 | An approval taken back leaves a package that arrived waiting and one made here closed; everything is as before exactly when it was a package that arrived and waited, or a closed one |
| PackageLifecycle.NewVersionsSupersede | src/ZapMQ.Server/Transport/TransportStore.cs:390-397 | A version that arrives supersedes exactly the older ones of its line that waited |
| PackageLifecycle.NeverRemoved | src/ZapMQ.Server/Transport/TransportStore.cs:412-424 | A package that arrived, has a delivery on record or is not merely closed is never removed, by any step |
| PackageLifecycle.RemovedExactly | src/ZapMQ.Server/Transport/TransportStore.cs:412-424 | A package can be removed exactly when it was made here, is closed, and no delivery is on record |
| Deliveries.ReceivedYetRemoved | src/ZapMQ.Server/Transport/TransportStore.cs:407-424 | For every package that can be sent there is a run in which the other environment has it and the answer is lost, so that no delivery is on record and it can be removed |
| PackageScripts.ScriptsRunOnce | src/ZapMQ.Server/Transport/TransportService.cs:866-882 | Over any run of approvals, cancellations, reverts, versions, deletions and crashes, a script of a line is recorded as run without a skip at most once, and from then on it is never sent, whatever the answer would be |
| PackageScripts.NotSentAgain | src/ZapMQ.Server/Transport/TransportService.cs:1210-1219 | A script on record as having run is not sent again, by the package that ran it or by another version |
| PackageScripts.SkippedExactlyWhenItRan | src/ZapMQ.Server/Transport/TransportService.cs:1210-1219 | When it is the turn of a script it is skipped exactly when it ran before in its line, at whatever point of the whole run and in whatever version |
| PackageAttempts.WaitsKnownForSure | src/ZapMQ.Server/Transport/TransportService.cs:781-784 | A package that failed waits exactly when its last attempt got one refusal and nothing else, or asked nothing that is on record; the second does not come about unless the service was stopped |
| PackageAttempts.StoppedAtTheFirst | src/ZapMQ.Server/Transport/TransportService.cs:839-846 | Stopped before the first item is on record, a package counts as failed and waits although nothing is known |
| PackageUndo.LastInFirstOut | src/ZapMQ.Server/Transport/TransportService.cs:884-967 | In a plain run each target holds what the latest standing result left, or what was there at first, and each standing result found what the one beneath it left |
| PackageReverts.RevertedLeavesAsFound | src/ZapMQ.Server/Transport/TransportService.cs:1015-1108 | When a package ends reverted, the target of an item is as the item found it exactly when the item still stood when the putting back began, or the target was as found already then |
| PackageReverts.ToldBeforehand | src/ZapMQ.Server/Transport/TransportService.cs:973-990 | Where the putting back begins as it is asked for, that can be told from the records before asking: the item still stands, or what the latest result standing over its target left, or else what was there at first, is what the item found |
| PackageReverts.OneGoLeavesAllAsFound | src/ZapMQ.Server/Transport/TransportService.cs:973-990 | A package of which nothing had been put back before leaves, when it ends reverted, every target as its item found it |
| PackageReverts.TargetsAreOnRecord | src/ZapMQ.Server/Transport/TransportService.cs:884-905 | In a plain run the records show what each target holds |
| PackagePiles.PiledOn | src/ZapMQ.Server/Transport/TransportService.cs:1222-1276 | A result that comes to stand is put on top of what stands over its target, with what it found there |
| PackagePiles.TakenOff | src/ZapMQ.Server/Transport/TransportService.cs:1077-1096 | Putting back what was applied last takes the top off and shows what is beneath |
| PackageUndo.BegunFree | src/ZapMQ.Server/Transport/TransportService.cs:901-905 | What is going to be put back has nothing standing over it |
| PackageTwoGoes.RevertedInTwoGoes | src/ZapMQ.Server/Transport/TransportService.cs:973-990 | The condition can fail: put back in two goes with another package applied in between, a reverted package leaves a target otherwise than it found it |
| TransportServices.TransportService.Apply | src/ZapMQ.Server/Transport/TransportService.cs:1177-1291 | The items are applied in order, each with the answer of the machine to it, up to the first that is not, and the records go through exactly the steps of the model |
| TransportServices.TransportService.Undo | src/ZapMQ.Server/Transport/TransportService.cs:1015-1108 | The items of the plan are put back in order up to the first that is not, each written down before it is tried and settled by the answer to it, by the steps of the model |
| TransportServices.TransportService.RevertPlan | src/ZapMQ.Server/Transport/TransportService.cs:911-967 | Exactly the items whose records say that they can be put back, as `PackagePlans.PlannedExactly` tells, the last first |
| TransportServices.TransportService.Revert | src/ZapMQ.Server/Transport/TransportService.cs:973-990 | Asked for exactly when the package was applied, in part or put back in part, and some item can be put back |
| TransportServices.TransportService.Recover | src/ZapMQ.Server/Transport/TransportService.cs:839-859 | No package is left applying or reverting, and each is judged by what is on record |
| TransportServices.TransportService.RecoverOne | src/ZapMQ.Server/Transport/TransportService.cs:839-859 | An item that was being put back is not known to be; the status follows from what stands |
| TransportServices.TransportService.Approve | src/ZapMQ.Server/Transport/TransportService.cs:781-802 | Approved exactly when it waits and no newer version is here |
| TransportServices.TransportService.Reject | src/ZapMQ.Server/Transport/TransportService.cs:804-816 | What waits is refused; an approval is taken back to where the package came from |
| TransportServices.TransportService.Import | src/ZapMQ.Server/Transport/TransportStore.cs:352-405 | A package that is here already is refused; otherwise it waits, and older versions that waited are superseded |
| TransportServices.TransportService.Delete | src/ZapMQ.Server/Transport/TransportStore.cs:412-444 | Only a closed package made here and not delivered is removed, and nothing it did stands |
| Transfers.TransferIsSafe | src/ZapMQ.Server/Transport/TransportRoutes.cs:400-462 | However requests and answers are lost and attempts overlap, what came is a beginning of the file within the maximum, a package taken in is the file, a recorded delivery means it is there, and it is never removed |
| Transfers.StepsAreBounded | src/ZapMQ.Server/Transport/TransportRoutes.cs:640-699 | An attempt takes no more steps than there are bytes to send, and three |
| Transfers.PartIsTaken | src/ZapMQ.Server/Transport/TransportRoutes.cs:408-429 | A part is taken exactly when it begins at the start or where the rest ended and all of it fits; it follows what came before it, and only a part from the start loses that |
| Transfers.CompletedExactly | src/ZapMQ.Server/Transport/TransportRoutes.cs:435-462 | A package is taken in exactly when none is here, what came is what was sent and it is welcome; what came is gone then, taken in or refused |
| Transfers.GoesOnWhereItStopped | src/ZapMQ.Server/Transport/TransportRoutes.cs:646-659 | An attempt goes on exactly where the parts stopped that came so far, with parts of four megabytes |
| Transfers.GoesOnAfterAPart | src/ZapMQ.Server/Transport/TransportRoutes.cs:661-670 | After a part that was taken the next one follows without a gap, and the completion after the last; after one that was not, the attempt fails |
| Transfers.RecordedWhenHeard | src/ZapMQ.Server/Transport/TransportRoutes.cs:671-682 | A delivery comes on record exactly when the sender hears that the package is there |
| Transfers.PartKeeps | src/ZapMQ.Server/Transport/TransportRoutes.cs:408-429 | A part of the file leaves a beginning of the file |
| TransportRoutes.TransportInbound.Part | src/ZapMQ.Server/Transport/TransportRoutes.cs:408-429 | A part is appended exactly when it begins where the rest ended and fits; one from the start begins over |
| TransportRoutes.TransportInbound.Complete | src/ZapMQ.Server/Transport/TransportRoutes.cs:435-462 | What came is taken in exactly when none is here, it is what was sent and welcome; taken in or refused, it is gone from the door |
| TransportRoutes.Run | src/ZapMQ.Server/Transport/TransportRoutes.cs:640-699 | An undisturbed attempt delivers exactly when the package is there already or can be taken, and sends exactly the bytes that had not arrived |
| Arranging.Arrange | src/ZapMQ.Server/Transport/TransportService.cs:570-607 | The loop places the items as the specification does, which `Arranging.NothingHeldBack`, `Arranging.AlikeAsGiven` and `Arranging.NeedsComeFirst` characterise |
| Arranging.ArrangedIsPermutation | src/ZapMQ.Server/Transport/TransportService.cs:570-607 | Every item is placed as often as it was given |
| Arranging.NeedsComeFirst | src/ZapMQ.Server/Transport/TransportService.cs:583-604 | Every item comes after a definition of each name it needs exactly when no needs go round in a circle |
| Arranging.LayersComeInOrder | src/ZapMQ.Server/Transport/TransportService.cs:572-576 | What is dropped in the database comes after all that is made there, files after that and web applications last, exactly when no needs go round in a circle or there is nothing to drop and no file to replace |
| Arranging.NothingHeldBack | src/ZapMQ.Server/Transport/TransportService.cs:570-604 | Where everything an item uses is placed already, only what comes before it by layer, or in the first layer by the turn of its kind (types, tables, scripts, functions, views, procedures), or with it, is placed |
| Arranging.AlikeAsGiven | src/ZapMQ.Server/Transport/TransportService.cs:578 | Of items of the same layer and kind that use nothing of what comes along, the one given first comes first |
| Arranging.NoCircleRises | src/ZapMQ.Server/Transport/TransportService.cs:598-600 | No needs go round in a circle exactly when the names can be given heights with a definition of each above all it needs |
| Arranging.CircleLetsOthersAhead | src/ZapMQ.Server/Transport/TransportService.cs:598-600 | Whatever needs nothing is placed ahead of every definition that goes round in a circle |
| Arranging.TwoViewsInACircle | src/ZapMQ.Server/Transport/TransportService.cs:598-600 | A package of three items in which a needed name comes later and something is dropped before anything is made |

## Left out

- Broker: as a class it has only the round of a released consumer. Publishing, binding, confirming, disconnecting, configuring and sweeping through the registry are steps of the interleaved model, where the retry loops are a look-up and an attempt that may be repeated.
- Entry: a message in the line or in flight is a value and not a shared object; one message is in one place only, so no aliasing is lost.
- LinkedList and Dictionary: the line is a sequence and the messages in flight a map. A sweep goes through the map in any order.
- Interleaving: where the turn of the last queue starts is any place of the list, so that what `Fairness` says about whose turn it is is tied to the code by `Brokers.Broker.Free`, and which steps are takings by `Overtaken.WaysOf`.
- Interleaving: in one locked stretch of the interleaved model the settings are read once, and time may pass between any two steps. `Await` finds out once whether its consumer is closed, and not anew for each answer it hands over.
- TransportServices.TransportService.Approve: the approver rule, the window, the scheduled time and the comparison with the environment, which only refuse more, are not modelled.
- Packages.Enabled: approving leaves out the approver rule, the window, the scheduled time and the comparison with the environment, which only refuse more; acknowledging changes no status.
- Packages.CanPutBack: reading the target and planning are one step, and installing an application is a replacement of which no copy is kept.
- TransportStore: drafts, the area, the package file and what `Delete` puts back into the area are not part of this model.
- Transfers: one package of one origin at one door; signatures and the check of the content of a package are a yes or no.
- Arranging: what a script needs is given as a set of names, and two definitions may share a name, of which the first to be placed counts as it does in the code.
- Watching: `Watch`, `Tell`, taps, metrics and the record of who uses a queue.
- Sending: what a consumer does with a message it is handed, and the order of sends after a lock is released.
- Resolve: broker options and disposable queues; a queue has its settings.
- around: folding the unchanged lines of a comparison away.
- HTTP, WebSocket and panel plumbing, configuration files, cryptography, packing, reading SQL and files.
