# motus: a verified model of its message fates

motus moves opaque byte messages between processes through a transport. This project models the parts
that decide what becomes of a message, and proves what their users rely on:

- the in-memory broker and the transports that share it: bounded FIFO queues, three overflow policies,
  dead-lettering, requeue to the front, routing groups, purge, deferred settlement, return on close;
- pattern matching of routes (the topic exchange rule of section 3.1.3.3 of AMQP 0-9-1);
- the consumer's retry policy, its counters and its settlement queue;
- the bounded hand-off of diagnostic records to one worker, with flush;
- the versioned wire envelope;
- the reconnection state machine of the SimpleAmqpClient backend.

## How it is built

Each stateful class of the program is a Dafny class with the same fields and methods (`Broker`,
`InMemoryTransport`, `SettlementQueue`, `Consumer`, `AsyncLogSink`, `SimpleAmqpTransport`). Every method's
contract equates the new state and the answer with a function of the old state; the functions live in
`BrokerModel`, `TransportModel`, `ConsumerModel`, `LogModel` and `ReconnectModel`, and the theorems are about
them. What each call answers and leaves behind is stated a second time, in terms of the queues, bindings and handler answers
themselves, in `DeclarationLaws`, `SendLaws`, `PumpLaws`, `ConsumerLaws` and `ReconnectLaws`. The loops of the source are loops here (the splitting and `#` loops of route matching, the digit loop of
the envelope, the publish loop over the topics, pump, return on close, the settling loop, the log worker).

Concurrency is interleaving. `Fleet` runs any number of transports over one broker, one critical section per
action; a schedule is an arbitrary sequence of actions, so a theorem about `Run(Start(n), actions)` is about every
interleaving of every program. `SessionLaws` shows that declare, close and pump are such schedules, pump also with
others acting between its turns and during its handler; `ConsumerRuns` cuts a consumer's thread into the steps between
which others can act and shows that the class's poll is one run of them. `LogModel` does the same for callers, worker,
flushers and their notifications, and `ReconnectModel` for losses, failed steps and clock readings.

The broker carries a history that the program does not have: for every sequence number ever stamped, where the copy
was published, its bytes, whether a queue ever took it, and where it is now (waiting at a topic, with a transport, or
ended with a fate). It is ghost state; no decision depends on it.

Files, from the bottom up: `Wrappers`, `Arithmetic`, `Text`, `Names`, `Seam`, `Routes`, `Envelope`; `BrokerModel`,
`QueueLaws`, `BrokerLaws`, `PublishLaws`, `StepLaws`, `Broker`; `TransportModel`, `InMemoryTransport`; `Fleet`,
`FleetLaws`, `AdmissionLaws`, `FleetBounds`, `FleetCounts`, `FleetDrain`, `Guarantees`, `SessionLaws`,
`SettlementLaws`; `ChainLaws`, `FanoutLaws`, `SendLaws`, `PumpLaws`, `DeclarationLaws`, `OverloadLaws`, `Limits`;
`ConsumerModel`, `Consumer`, `ConsumerLaws`, `ConsumerRuns`; `LogModel`, `LogLaws`, `LogSink`; `ReconnectModel`, `ReconnectLaws`, `SimpleAmqpTransport`.

Verify with `dafny verify dfyconfig.toml`.

## What turned out differently from the obvious claim

Each claim below fails; the lemmas named show an input and say exactly when it holds.

- "A queue never exceeds maxLength": requeue ignores it (`Limits.RequeueExceedsMaxLength`). Over any run the bound is kept
  if and only if no delivery is handed back while the queue is full (`Limits.BoundKeptIff`); m plus the number of
  subscribers always bounds queue and deliveries in hand together (`Guarantees.DepthBound`).
- "Rejecting keeps the copy and never throws": on a topic nobody declared it throws and the copy is gone
  (`Limits.UndeclaredTopicLoses`). It throws exactly when the chain of forensic topics is cut, and leaves the bytes in a
  queue exactly when that chain takes them in; the state before the call shows both (`ChainLaws.RejectThrowsIff`,
  `ChainLaws.RejectedBytesAreKeptIff`). With the forensic topic a declaration provides it never throws, and the bytes are
  kept exactly while that holds fewer than 2000 (`ChainLaws.KeptIfReady`).
- "A grouped publish serves every destination": a throw stops it. It throws exactly when the loop comes to a destination that
  is full, would dead-letter and has its chain cut (`FanoutLaws.GroupedPublishFailsIff`); if no destination is forensic to
  another, the state before the call tells (`FanoutLaws.ApartPublishFailsIff`).
- "A consumer's counters are its transport's": they part exactly when a handler rejects while that chain is cut
  (`ConsumerLaws.PollAgrees`). For a consumer that was started this cannot happen (`ConsumerRuns.ConsumersKeepStep`).
- "Either declarer may start first": a route, group or routing kind is not compared on redeclaration, and the first
  declarer decides which messages of the group arrive (`DeclarationLaws.FirstDeclarationWins`). Both orders succeed and no
  publish can tell them apart exactly when properties, group and routing agree, no existing group is contradicted, and: in an
  Exact group the bindings are equal; in a Pattern group they match the same keys and are matched, as keys, by the same
  bindings of the group; in a Broadcast group nothing more (`DeclarationLaws.OrderIsIrrelevantIff`, and
  `DeclarationLaws.DeclareOrderIsIrrelevantIff` for the call with its forensic half).
- "A refused declaration changes nothing": a declaration that disagrees with a topic nobody declared is refused after it has
  created that topic's forensic destination (`Limits.RefusedDeclarationProvisions`). A refusal changes nothing exactly when
  all that the declaration would create before it is refused is there already: the forensic group and topic, if it asks for
  them, and its own group (`Limits.RefusedDeclarationIsIdleIff`).
- "settle is for deferred deliveries": it accepts a tag exactly if its handler deferred or threw
  (`SettlementLaws.DeferredOrThrownCanBeSettled`).
- "Retry is bounded to one attempt": except exactly where a handler defers, requeues a redelivery, or throws past
  std::exception (`ConsumerLaws.RetryIsBounded`); throwing and restarting can repeat for ever
  (`Limits.ThrowAndRestartRepeats`).
- "Re-serializing gives the same bytes": exactly for bodies that begin with the build's own prefix
  (`Envelope.ReserializingNeverGrows`); a leading zero is dropped (`Envelope.LeadingZeroIsDropped`).
- "The backoff is min(maxDelay, initialDelay * 2^(k-1))": exactly when the 64-bit shift does not overflow or its wrapped
  value reaches the cap (`ReconnectLaws.DelayIsIntendedIff`, `ReconnectLaws.ShiftCanOverflow`).
- "Ready with a subscription means consuming": unless the caller connects again, or declares another topic, while
  subscribed (`ReconnectLaws.SecondConnectForgetsConsumer`, `ReconnectLaws.OtherTopicTakesOver`).
- "close() is final": with a policy that is enabled, has attempts left and is not backing off, the next pump opens the
  connection again, and in no other case (`ReconnectLaws.ClosedTransportReconnects`), although ready() is documented as
  "not since closed".

## Model

| member | source | states |
|---|---|---|
| Routes.SplitWords | include/motus/transport/ITransport.hpp:245-257 | the loop that cuts a text at its dots computes Split, the inverse of joining with dots |
| Routes.SplitThenJoin | include/motus/transport/ITransport.hpp:245-257 | joining the words of a text gives the text back, and no word contains a dot |
| Routes.JoinThenSplit | include/motus/transport/ITransport.hpp:245-257 | splitting joined dot-free words gives exactly those words, so the cut is unique |
| Routes.At | include/motus/transport/ITransport.hpp:268-280 | the backtracking recursion with its inner loop terminates and decides MatchesFrom |
| Routes.RouteMatchesLoop | include/motus/transport/ITransport.hpp:243-284 | routeMatches answers yes exactly when the route's words can be cut into consecutive segments, one per pattern word: any for `#`, one word for `*`, itself for a literal |
| Routes.MatchesIffCuttable | include/motus/transport/ITransport.hpp:231-241 | the recursion and the declarative meaning agree on all patterns and routes |
| Routes.MatchesConcat | include/motus/transport/ITransport.hpp:231-241 | a pattern in two parts matches exactly the routes that can be cut once between them |
| Routes.EquivalentInContext | include/motus/transport/ITransport.hpp:231-241 | patterns that match the same routes are interchangeable inside any larger pattern |
| Routes.HashHashIsHash | include/motus/transport/ITransport.hpp:271-276 | `#.#` means `#` wherever it stands |
| Routes.HashStarIsStarHash | include/motus/transport/ITransport.hpp:271-279 | `#.*` means `*.#` wherever it stands |
| Routes.MatchesReversed | include/motus/transport/ITransport.hpp:268-283 | reversing pattern and route together does not change the answer, though the matcher reads left to right |
| Routes.MatchesItself | include/motus/transport/ITransport.hpp:268-280 | every binding, wildcards included, matches itself as a route |
| Routes.LiteralPatternIsExact | src/transport/InMemoryTransport.cpp:128-131 | a binding without wildcard words routes like Exact |
| Routes.HashPatternIsBroadcast | src/transport/InMemoryTransport.cpp:128-131 | the binding `#` routes like Broadcast |
| Names.LeqIsLexicographic | src/transport/InMemoryTransport.cpp:123 | the publish loop visits names in byte-wise lexicographic order: beginnings first, else by the first character that differs |
| Envelope.Deserialize | include/motus/ByteMessage.hpp:91-126 | the parser with its digit loop computes Decode, error cases and their order included |
| Envelope.Version | include/motus/ByteMessage.hpp:107-116 | the version accumulator never exceeds 1000009 |
| Envelope.DecodeOfWire | include/motus/ByteMessage.hpp:107-121 | on `motus:` zeros version `:` payload the answer depends on the version alone: out of range above 1000009, unsupported, or the payload |
| Envelope.AcceptsExactly | include/motus/ByteMessage.hpp:91-126 | a build accepts a body and reads a payload from it if and only if the body is within 4 MiB and is `motus:`, zeros, its version, `:`, that payload |
| Envelope.RefusedBeforeReading | include/motus/ByteMessage.hpp:91-106 | a body is refused for its size, for its magic, or for a missing or empty version field, each exactly when |
| Envelope.RefusedAsItsField | include/motus/ByteMessage.hpp:107-126 | a body with a version field is refused as that field is, or for the version it reads, and accepted otherwise |
| Envelope.FirstProblemNamed | include/motus/ByteMessage.hpp:107-116 | the field is read from the left and refused for what stops the loop first: a character that is no digit, or a digit after more than 100000 |
| Envelope.ShippedBuildAccepts | include/motus/ByteMessage.hpp:91-126 | the shipped build accepts exactly `motus:` zeros `1:` payload within 4 MiB |
| Envelope.BuildsUnderstandOnlyThemselves | include/motus/ByteMessage.hpp:39-44 | build N reads build M's output if and only if M = N and N passes the digit guard |
| Envelope.RoundTrip | include/motus/ByteMessage.hpp:70-80 | serialize refuses exactly the payloads that do not fit, and deserialize undoes it on all others |
| Envelope.ReserializingNeverGrows | include/motus/ByteMessage.hpp:107-121 | re-serializing an accepted body never fails, grows it or changes what is read from it, and gives the same bytes back exactly when the body begins with the build's own prefix |
| Envelope.LeadingZeroIsDropped | include/motus/ByteMessage.hpp:107-121 | a body with version 01 is accepted and comes back one byte shorter |
| BrokerClass.Broker.EnsureTopic | src/transport/InMemoryTransport.cpp:46-88 | new state and refusal of a declaration, as the model function |
| BrokerClass.Broker.Publish | src/transport/InMemoryTransport.cpp:103-136 | the in-place loop over the topics in key order has the effect of the recursive fan-out |
| BrokerClass.Broker.Stamp | src/transport/InMemoryTransport.cpp:113-114 | one stamp and one enqueue; the set of topics and groups stays |
| BrokerClass.Broker.EnqueueLocked | src/transport/InMemoryTransport.cpp:200-225 | overflow handling terminates whatever topics exist, and has the model's effect |
| BrokerClass.Broker.DeadLetterLocked | src/transport/InMemoryTransport.cpp:231-245 | dead-lettering, mutually recursive with enqueue, terminates since names lengthen within a finite map |
| BrokerClass.Broker.Take | src/transport/InMemoryTransport.cpp:139-149 | the front message leaves the queue, if there is one |
| BrokerClass.Broker.Requeue | src/transport/InMemoryTransport.cpp:157-162 | the message returns to the front, flagged, whatever the bound |
| BrokerClass.Broker.DeadLetter | src/transport/InMemoryTransport.cpp:166-170 | the locked entry to dead-lettering |
| BrokerClass.Broker.Depth | src/transport/InMemoryTransport.cpp:172-179 | the length of the queue, 0 for an unknown topic |
| BrokerClass.Broker.Purge | src/transport/InMemoryTransport.cpp:187-196 | the queue is emptied and its length reported |
| InMemory.InMemoryTransport.Connect | src/transport/InMemoryTransport.cpp:312-317 | connected afterwards, nothing else changed |
| InMemory.InMemoryTransport.EnsureTopic | src/transport/InMemoryTransport.cpp:333-345 | the forensic topic first, the topic only if that succeeded |
| InMemory.InMemoryTransport.TopicDepth | src/transport/InMemoryTransport.cpp:347-351 | the queue's length, refused before connect |
| InMemory.InMemoryTransport.PurgeTopic | src/transport/InMemoryTransport.cpp:353-361 | the purge's effect and count, refused before connect |
| InMemory.InMemoryTransport.Send | src/transport/InMemoryTransport.cpp:363-380 | effect, answer and statistics of a send, with its refusals and the exception that may pass through |
| InMemory.InMemoryTransport.Subscribe | src/transport/InMemoryTransport.cpp:382-396 | a second subscription and one before connect are refused without effect |
| InMemory.InMemoryTransport.Pump | src/transport/InMemoryTransport.cpp:398-497 | the polling loop delivers at most one message and performs what its handler decided |
| InMemory.InMemoryTransport.Finish | src/transport/InMemoryTransport.cpp:441-489 | a throwing handler leaves the delivery outstanding, a deferring one too, any other answer resolves it |
| InMemory.InMemoryTransport.Perform | src/transport/InMemoryTransport.cpp:469-489 | the delivery is erased, then acknowledged, requeued or dead-lettered and counted |
| InMemory.InMemoryTransport.Settle | src/transport/InMemoryTransport.cpp:499-539 | the refusals in their order, then the same resolution |
| InMemory.InMemoryTransport.ReturnOutstanding | src/transport/InMemoryTransport.cpp:541-559 | the walk from the highest tag down has the effect of ReturnAll |
| InMemory.InMemoryTransport.Close | src/transport/InMemoryTransport.cpp:319-326 | everything outstanding is returned, then the transport is disconnected |
| PublishLaws.EnqueueKeeps | src/transport/InMemoryTransport.cpp:200-225 | enqueueing under any overflow policy keeps the books, the order and the honesty of fates, and loses nothing of a provisioned topic |
| PublishLaws.EvictionKeeps | src/transport/InMemoryTransport.cpp:208-214 | so does evicting the oldest message for a new one |
| PublishLaws.DeadLetterKeeps | src/transport/InMemoryTransport.cpp:231-245 | so does dead-lettering, through any chain of topics |
| PublishLaws.PublishKeeps | src/transport/InMemoryTransport.cpp:103-136 | so does a whole publish, grouped or not |
| PublishLaws.UndeclaredNeverFails | src/transport/InMemoryTransport.cpp:107-115 | the publish that creates a topic is accepted whatever its route, and leaves exactly that topic, with default options, no binding and this one message |
| StepLaws.TakeKeeps | src/transport/InMemoryTransport.cpp:139-149 | taking moves exactly the front copy into the taker's hands and keeps books, order and fates |
| StepLaws.RequeueKeeps | src/transport/InMemoryTransport.cpp:157-162 | requeueing a copy that was first delivered from the topic keeps books, order and fates |
| StepLaws.PurgeKeeps | src/transport/InMemoryTransport.cpp:187-196 | purging keeps books, order and fates |
| StepLaws.EnsureTopicKeeps | src/transport/InMemoryTransport.cpp:46-88 | declaring keeps books, order and fates, and no existing topic's options |
| FleetLaws.ApplyKeeps | src/transport/InMemoryTransport.cpp:103-245 | every critical section by any of any number of transports keeps the whole invariant and undoes no recorded end |
| FleetLaws.RunKeeps | src/transport/InMemoryTransport.cpp:103-245 | so does every schedule |
| FleetLaws.Reachable | src/transport/InMemoryTransport.cpp:398-559 | the invariant holds after every schedule from the start |
| AdmissionLaws.EnqueueAdmits | src/transport/InMemoryTransport.cpp:200-225 | offering a new copy keeps the account of admissions through every overflow policy: what is refused was never in a queue, what waits or was acknowledged, purged or dropped was, and replacements are stamped anew |
| AdmissionLaws.DeadLetterAdmits | src/transport/InMemoryTransport.cpp:231-245 | dead-lettering keeps that account, through any chain of topics |
| AdmissionLaws.RunAdmits | src/transport/InMemoryTransport.cpp:103-245 | over every schedule what is refused was never in a queue, what waits, is held, acknowledged, purged or dropped was, none of this is forgotten, and a copy replaced meanwhile was replaced by one stamped meanwhile |
| Guarantees.ExactlyOnePlace | src/transport/InMemoryTransport.cpp:103-245 | conservation: every number ever stamped is in exactly one of a queue, a transport's hands and a recorded end; in one queue at one position, with one transport |
| Guarantees.NothingInvented | src/transport/InMemoryTransport.cpp:103-162 | only stamped copies are ever waiting or held |
| Guarantees.EndsAreFinal | src/transport/InMemoryTransport.cpp:398-559 | a copy that ended never waits, is held or ends differently later, so nothing is acknowledged twice |
| Guarantees.NoSilentLoss | src/transport/InMemoryTransport.cpp:201-245 | a copy that a queue of a topic declared with deadLetter ever took is waiting there, held, acknowledged or purged; or one byte-identical forensic copy was stamped, which the forensic queue took, or refused while it held at least 2000; it is never refused, dropped or lost |
| Guarantees.NoSilentLossOnceDeclared | src/transport/InMemoryTransport.cpp:201-245 | the same holds, whatever happens from then on, of a copy published before its topic was declared and still waiting or held when that is done |
| Guarantees.RefusalsAreAccounted | src/transport/InMemoryTransport.cpp:215-219 | a copy no queue of such a topic took was refused by the full topic, or is kept as evidence in the same sense |
| Guarantees.AcceptedIsNeverRefused | src/transport/InMemoryTransport.cpp:200-225 | what ever waited was taken, and no later schedule makes it count as refused |
| Guarantees.ForensicCopiesAreDistinct | src/transport/InMemoryTransport.cpp:242-244 | no two copies share a forensic replacement |
| Guarantees.FirstDeliveriesFollowPublication | src/transport/InMemoryTransport.cpp:139-162 | with any number of consumers, first deliveries of a topic follow publication order, and its queue is redelivered copies, then fresh ones in publication order, all later than every first delivery |
| Guarantees.FreshDeliveryIsNext | src/transport/InMemoryTransport.cpp:420-439 | a fresh delivery is later than every first delivery before it; a redelivery is one of those |
| Guarantees.DepthBound | src/transport/InMemoryTransport.cpp:157-162 | if at most c transports ever subscribe to a topic of length m, queue plus deliveries in hand never exceed m + c, and retries plus deliveries in hand never exceed c |
| Guarantees.DepthBoundForAll | src/transport/InMemoryTransport.cpp:201-225 | for N transports the bound m + N holds without further assumption |
| Guarantees.SoleSubscriberSeesOrder | src/transport/InMemoryTransport.cpp:541-559 | with a single subscriber, deliveries in hand and then the queue are in publication order, across retries, throws, closes and restarts |
| Guarantees.DeclaredTopicsAreProvisioned | src/transport/InMemoryTransport.cpp:333-345 | a topic declared with deadLetter always has its forensic topic with deadLetter off, length 2000 and RejectPublish, so dead-lettering for it never throws and nests once |
| Guarantees.ForensicTakes | src/transport/InMemoryTransport.cpp:231-245 | with a provisioned forensic topic, dead-lettering stamps one copy, appends it unless the forensic queue is full, and changes no other topic |
| FleetCounts.AcksAreDistinctCopies | src/transport/InMemoryTransport.cpp:434-489 | a transport's ack count is the number of distinct copies it acknowledged, no copy counts for two transports, and received = acks + rejects + requeues + outstanding + returned + throws of dead-lettering |
| FleetDrain.DrainBound | src/transport/InMemoryTransport.cpp:471-489 | under the bounded-retry policy each delivery costs one unit of the credit 2 per fresh and 1 per redelivered waiting message, whatever others do aside |
| FleetDrain.KeepingAwayIsAside | src/transport/InMemoryTransport.cpp:103-559 | connections, declarations and all business of other topics that no publish or dead letter carries into this one leave its queue and its deliveries in hand alone |
| FleetDrain.TwoDeliveriesPerMessage | src/Consumer.cpp:46-53 | M waiting messages need at most 2M deliveries, however many consumers compete and however handlers fail |
| FleetDrain.IdleConsumersDeliver | src/transport/InMemoryTransport.cpp:405-439 | a consumer with free hands takes a message exactly when one waits |
| FleetDrain.TwoDeliveriesEachAreEnough | src/Consumer.cpp:46-53 | after 2M deliveries none of M messages waits any more |
| FleetDrain.StuckMeansEmpty | src/transport/InMemoryTransport.cpp:405-489 | with a consumer there, no further step of work is possible only when the topic is empty and nothing is in hand |
| FleetDrain.EveryMessageIsWorkedOff | src/Consumer.cpp:94-113 | draining terminates: at most 4M steps of work, 2M of them deliveries, in any order over any consumers, among any actions that leave the topic's queue and deliveries alone; where no step is left and a consumer has not closed, the topic is empty and each message that waited was acknowledged or rejected, none of them lost on a declared topic |
| SessionLaws.InOrderIsAscending | src/transport/InMemoryTransport.cpp:551-556 | what is handed back lists every outstanding delivery once, ascending, flagged and otherwise unchanged |
| SessionLaws.ReturnedInOrder | src/transport/InMemoryTransport.cpp:541-559 | for an outstanding map of any size, the queue afterwards is the ascending outstanding deliveries followed by the old queue, and nothing else changed |
| SessionLaws.OneUnresolvedDelivery | src/transport/InMemoryTransport.cpp:405-418 | a transport never has more than one unresolved delivery, and while it has one it takes no other |
| SettlementLaws.OutAfter | src/transport/InMemoryTransport.cpp:437-539 | exactly which actions put a tag into a transport's hands and which take it out |
| SettlementLaws.SettledAtMostOnce | src/transport/InMemoryTransport.cpp:511-518 | after a settle that resolved a tag, whatever anybody does, every later settle of it there is refused without effect until the transport takes it from the queue again |
| SettlementLaws.TakenAgainIsFlagged | src/transport/InMemoryTransport.cpp:157-162 | a tag that was ever in a transport's hands is flagged as redelivered whenever anyone takes it again |
| SettlementLaws.DeferredOrThrownCanBeSettled | src/transport/InMemoryTransport.cpp:441-467 | after the handler came back, and however long others act, settle resolves the tag exactly when the handler deferred or threw |
| SessionLaws.RequeueFlags | src/transport/InMemoryTransport.cpp:526-529 | a delivery settled with Requeue is next in line, flagged as redelivered |
| SessionLaws.PurgeTakesWhatWaits | src/transport/InMemoryTransport.cpp:181-196 | purge ends exactly the copies waiting at the topic and reports how many; copies in hand and other topics stay |
| SessionLaws.PumpIsASchedule | src/transport/InMemoryTransport.cpp:398-497 | one undisturbed call of pump is a delivery and the handler's return in the interleaving model |
| SessionLaws.PumpAmongIsASchedule | src/transport/InMemoryTransport.cpp:398-497 | pump with any actions of others before each turn and during its handler is a schedule too |
| SessionLaws.PumpAmongNobody | src/transport/InMemoryTransport.cpp:403-439 | with nobody acting it is the pump of the transport class |
| SessionLaws.CloseIsASchedule | src/transport/InMemoryTransport.cpp:319-326 | in a reachable state close is at most one return, then the disconnection |
| SessionLaws.DeclareIsASchedule | src/transport/InMemoryTransport.cpp:333-345 | ensureTopic is its forensic half, then the topic itself |
| DeclarationLaws.DeclareOne | src/transport/InMemoryTransport.cpp:46-88 | one more agreeing declaration, new or repeated, succeeds and adds exactly its topic, forensic topic and groups |
| DeclarationLaws.AllSucceed | src/transport/InMemoryTransport.cpp:46-88 | any list of agreeing declarations succeeds on a fresh broker and leaves what its set of names calls for |
| DeclarationLaws.OrderDoesNotMatter | include/motus/transport/ITransport.hpp:445-497 | the same declarations in any order, with any repetitions, all succeed and yield the same topics and groups |
| DeclarationLaws.CheckedOptionsAgree | include/motus/transport/ITransport.hpp:478-496 | options that pass the check without opting out agree in all six compared properties, on any two backends |
| DeclarationLaws.EitherMayStartFirst | src/Consumer.cpp:156-162 | after one such declarer succeeded, another with the same group is never refused and changes nothing |
| DeclarationLaws.DeclarationSays | src/transport/InMemoryTransport.cpp:46-88 | a declaration is refused exactly for a group of another kind or a topic that differs in more than group, route and routing; it never changes a topic that exists; a new one is empty and bound to its route or, without one, to its own name |
| DeclarationLaws.ReachedTold | src/transport/InMemoryTransport.cpp:117-131 | a publish under its own route, or without one under the origin's binding, reaches the destinations of the group whose binding equals that key (Exact), whose pattern's words can be laid over its words (Pattern), or all (Broadcast) |
| DeclarationLaws.DeclaredIsReachedIff | src/transport/InMemoryTransport.cpp:66-131 | a topic declared into a group takes what is published there under its route or, declared without one, under its name, and nothing else; under any key if Broadcast |
| DeclarationLaws.DefaultsRouteByPattern | include/motus/transport/ITransport.hpp:286-346 | who names a new group and nothing else gets pattern routing |
| DeclarationLaws.ForensicIsReachedIff | include/motus/transport/ITransport.hpp:350-407 | in the group motus.dead-letter the forensic topic motus.dead-letter.S takes exactly the key S; that of the empty name takes its own name |
| DeclarationLaws.CheckSays | include/motus/transport/ITransport.hpp:445-497 | the option check names the first capability that is missing, and passes otherwise exactly with the waiver or with durable, shared, kept, dead-lettered, unbounded, DropHead |
| DeclarationLaws.InMemoryChecks | include/motus/transport/ITransport.hpp:445-497 | on this backend every option passes with the waiver and exactly the default properties without it |
| DeclarationLaws.FirstDeclarationWins | src/transport/InMemoryTransport.cpp:66-81 | of two declarers of a new topic with different routes in one group both succeed in either order, and which messages reach the topic is decided by the first; in an Exact group its key reaches the topic in one order and not in the other |
| DeclarationLaws.OrderIsIrrelevantIff | src/transport/InMemoryTransport.cpp:46-136 | both orders of two declarations of a new topic succeed, and every publish to any topic under any route or none reaches the same destinations, if and only if properties, group and routing agree, no existing group is contradicted, and the bindings are equal (Exact), match and are matched alike (Pattern), or are anything (Broadcast) |
| DeclarationLaws.DeclareOrderIsIrrelevantIff | src/transport/InMemoryTransport.cpp:333-345 | the same for the call users make, whose forensic half must fit as well |
| OverloadLaws.OverloadLaw | src/transport/InMemoryTransport.cpp:201-245 | n publishes to a new topic of length m with no takes: which m bodies stay, which min(n - m, 2000) the forensic queue has, in order, and which publishes were refused, for each policy |
| OverloadLaws.OnePublish | src/transport/InMemoryTransport.cpp:201-225 | the bodies of queue and forensic queue after one publish to a bounded topic |
| OverloadLaws.AtCapMeansRefusing | include/motus/transport/ITransport.hpp:359-378 | AtCap is reported exactly when the next dead letter leaves the forensic queue as it was |
| OverloadLaws.PressureIsMonotone | include/motus/transport/ITransport.hpp:380-394 | a deeper queue never reads as less pressure, a longer one never as more |
| OverloadLaws.ForensicPressureGrades | include/motus/transport/ITransport.hpp:373-394 | for a forensic queue the early alarm starts at 1800 and the one that means loss at 2000 |
| FanoutLaws.GroupedPublishIsExact | src/transport/InMemoryTransport.cpp:117-135 | every destination the route reaches gets one copy at its end or refuses it as its policy says; the forensic topic of each one that overflows gets exactly what it sacrifices, unless at its cap; no other topic changes; the answer is yes exactly when none refused |
| FanoutLaws.GroupedPublishWithRoom | src/transport/InMemoryTransport.cpp:123-134 | with room everywhere, the copies are stamped in key order, one number each, and nothing else changes |
| FanoutLaws.PublishFrame | src/transport/InMemoryTransport.cpp:103-136 | in any broker state, even if dead-lettering throws, a topic that is no destination nor forensic to one is untouched |
| FanoutLaws.OwnRouteReachesSelf | src/transport/InMemoryTransport.cpp:118-121 | a publish without a route of its own always reaches its own topic, for every routing kind and binding |
| FanoutLaws.UnmatchedRouteVanishes | src/transport/InMemoryTransport.cpp:96-101 | a route no binding matches is accepted and reaches nobody |
| FanoutLaws.DeadLetterFrame | src/transport/InMemoryTransport.cpp:231-245 | dead-lettering changes topics reached by repeated forensic naming only |
| SendLaws.SendCounts | src/transport/InMemoryTransport.cpp:363-380 | the refusals in their order and without effect; an answered send counts one message and its bytes, one that threw counts nothing |
| SendLaws.SendStores | src/transport/InMemoryTransport.cpp:363-380 | to an ungrouped topic with room, declared or not: one fresh message with exactly the payload at the end of its queue, no other change, and the answer is yes |
| SendLaws.SendOffers | src/transport/InMemoryTransport.cpp:363-380 | to any ungrouped topic that can take its dead letters: it is offered exactly the payload, and the answer is yes unless it is full and not DropHead |
| SendLaws.SendDistributes | src/transport/InMemoryTransport.cpp:363-380 | to a grouped topic: every destination reached is offered exactly the payload, and the answer is yes exactly when each has room or is DropHead |
| SendLaws.SendThrowsIff | src/transport/InMemoryTransport.cpp:363-380 | a send throws exactly when its destination, or one the loop comes to, is full, would dead-letter and has its chain cut |
| SendLaws.SentIsDelivered | src/transport/InMemoryTransport.cpp:363-439 | what is sent to an empty topic is what its next consumer is given, byte for byte and unflagged |
| PumpLaws.HandlerGetsTheFront | src/transport/InMemoryTransport.cpp:398-444 | the handler is called exactly when there is a subscription, time, free hands and a message, and is given the front one as it waited |
| PumpLaws.PumpAnswers | src/transport/InMemoryTransport.cpp:398-497 | pump says gone exactly when not connected, throws exactly what the handler threw or what a rejection on a cut chain throws, and says alive in every other case |
| PumpLaws.IdlePumpIsIdle | src/transport/InMemoryTransport.cpp:398-423 | a pump that calls no handler changes nothing |
| PumpLaws.PumpCarriesOut | src/transport/InMemoryTransport.cpp:420-497 | each of the five ways a handler can come back has exactly its effect on queue, hands, statistics and other topics |
| PumpLaws.SettleAnswers | src/transport/InMemoryTransport.cpp:499-539 | the three refusals in their order and without effect, the exception, and the success, each exactly when |
| PumpLaws.SubscribeAnswers | src/transport/InMemoryTransport.cpp:382-396 | refused before connect and while subscribed, each exactly when; taken otherwise |
| PumpLaws.DeclareAnswers | src/transport/InMemoryTransport.cpp:333-345 | names the half that refused; the topic itself is not declared once its forensic half is refused |
| PumpLaws.CloseForgets | src/transport/InMemoryTransport.cpp:319-326 | after close nothing is connected, subscribed or in hand, whatever was; all that was in hand counts as returned |
| Limits.RequeueExceedsMaxLength | src/transport/InMemoryTransport.cpp:157-162 | deliver, publish, requeue makes a full queue of length m one longer than m |
| Limits.UndeclaredTopicLoses | src/transport/InMemoryTransport.cpp:238-240 | a message on a topic nobody declared, once rejected, is in no queue and in no hands: the topic is there, empty, and everything else is as before |
| ChainLaws.DeadLetterFailsIff | src/transport/InMemoryTransport.cpp:231-245 | dead-lettering throws exactly when the chain of forensic topics is cut in the state before the call: the next one missing, or full, sacrificing and cut itself |
| ChainLaws.PublishFailsIff | src/transport/InMemoryTransport.cpp:111-115 | an ungrouped publish throws exactly when its topic is full, would dead-letter, and its chain is cut |
| FanoutLaws.GroupedPublishFailsIff | src/transport/InMemoryTransport.cpp:123-135 | a grouped publish throws exactly when some destination it reaches is in that state when the loop, in key order, comes to it |
| FanoutLaws.ApartPublishFailsIff | src/transport/InMemoryTransport.cpp:123-135 | if no destination is on another's chain, exactly when one of them is in that state before the call |
| ChainLaws.RejectThrowsIff | src/transport/InMemoryTransport.cpp:482-485 | rejecting a delivery throws exactly when its topic's chain is cut |
| ChainLaws.DeadLetterKeptIff | src/transport/InMemoryTransport.cpp:200-245 | dead-lettering leaves a new message of these bytes in some queue exactly when the chain takes it in (room; or DropHead whose own sacrifice does not throw; or RejectPublishDlx that is taken in further on); otherwise no queue gains anything |
| ChainLaws.RejectedBytesAreKeptIff | src/transport/InMemoryTransport.cpp:482-485 | so in every reachable state the bytes of a rejected delivery are in a queue afterwards exactly when the chain takes them in, as the state before the call shows |
| ChainLaws.KeptIfReady | src/transport/InMemoryTransport.cpp:231-245 | with the forensic topic a declaration provides, that is exactly while it holds fewer than 2000 |
| ChainLaws.MarkedLostIff | src/transport/InMemoryTransport.cpp:236-240 | the history marks the rejected copy itself as gone with the throw exactly when the topic has deadLetter and its own forensic topic is missing |
| ChainLaws.PumpThrowsIff | src/transport/InMemoryTransport.cpp:420-489 | pump reports that exception exactly when its handler rejects and the chain is cut in the state pump finds |
| Limits.OverfillsIff | src/transport/InMemoryTransport.cpp:157-225 | one action takes a bounded queue past its bound exactly by handing a delivery back while it is full |
| Limits.BoundKeptIff | src/transport/InMemoryTransport.cpp:157-225 | over any run a queue keeps within maxLength if and only if no delivery is handed back while it is full |
| Limits.RefusalLeavesBrokerIff | src/transport/InMemoryTransport.cpp:46-88 | within the broker's one critical section, a refusal changes nothing if and only if it names no new group |
| Limits.RefusedDeclarationIsIdleIff | src/transport/InMemoryTransport.cpp:333-345 | a refused declaration leaves the broker as it was if and only if everything it would create before the half that is refused, forensic group and topic included, exists already |
| Limits.RefusedDeclarationProvisions | src/transport/InMemoryTransport.cpp:339-344 | publish to a new topic, then declare it with a length: refused, and the forensic topic and its group are there |
| Limits.ThrowAndRestartRepeats | src/transport/InMemoryTransport.cpp:446-458 | after a foreign exception, close, connect, subscribe and deliver hand the same message out again, flagged, and restore everything else |
| ConsumerLaws.RetryIsBounded | src/Consumer.cpp:62-114 | a first delivery is at most requeued and a redelivery is acked or rejected, if and only if the handler does not defer, requeue a redelivery or throw past std::exception |
| ConsumerLaws.PoisonIsRejected | src/Consumer.cpp:62-67 | exactly the bodies this build cannot read are rejected whatever the handlers would do |
| ConsumerLaws.MessagePolicy | src/Consumer.cpp:90-113 | an onMessage handler that returns means ack, a first transient failure requeue, a foreign exception a throw, and anything else a rejection, each exactly when; no handler at all a rejection |
| ConsumerLaws.DeferredPolicy | src/Consumer.cpp:69-88 | an onDeferred handler comes first, its answer is the decision, and its exceptions mean the same |
| ConsumerLaws.HandlersSeeThePayload | src/Consumer.cpp:22-42 | what was serialized into the shipped envelope is what the handler is given |
| ConsumerLaws.RequeueFallsBack | src/Consumer.cpp:166-228 | a backend that cannot requeue gets a rejection instead, and no other decision is changed |
| ConsumerLaws.CountsItsOwn | src/Consumer.cpp:188-228 | each decision is counted in its own counter |
| ConsumerLaws.PollCarriesOut | src/Consumer.cpp:235-261 | from handler to broker: handled is acknowledged and gone, a first transient failure is in front again and flagged, any other failure is out of the queue and rejected, a foreign exception leaves it in hand; each with its counter and poll's answer |
| ConsumerLaws.HandledIsGone | src/Consumer.cpp:94-98 | in every reachable state a message whose handler returned is in no queue and nobody's hands ever after |
| ConsumerLaws.BuildSays | src/Consumer.cpp:120-149 | construction is refused for no handler, no acknowledgement, no deferral, each exactly when |
| ConsumerLaws.StartSays | src/Consumer.cpp:151-164 | start is refused for options, declaration or subscription, each exactly when, with what each refusal leaves behind |
| ConsumerLaws.MessageConsumersDrain | src/Consumer.cpp:94-113 | a consumer without a deferred handler follows the drain rule, and each decision is a step of work unless a foreign exception is thrown |
| ConsumerLaws.DrainAgrees | src/Consumer.cpp:245-257 | a settlement is counted exactly when it was performed; a loop that ends normally leaves none |
| ConsumerLaws.PollAgrees | src/Consumer.cpp:235-261 | a poll keeps decided equal to performed, except that it counts one rejection too many precisely if its handler rejects while the forensic chain is cut in the state pump finds; a normal return never opens a gap |
| ConsumerLaws.DrainInPushOrder | include/motus/Consumer.hpp:77-99 | settling two batches is settling the first, then the second, so settlements pushed during the loop act as if pushed before it |
| ConsumerLaws.DrainLeavesTheRest | src/Consumer.cpp:243-257 | a settlement that threw is off the queue, and those pushed after it are still there, in order |
| ConsumerLaws.ThrownSettlementIsReported | src/Consumer.cpp:243-257 | a settlement's exception leaves poll as it came, uncounted, with its settlement off the queue and nothing pumped |
| ConsumerLaws.SettlingMakesRoom | src/Consumer.cpp:235-261 | poll settles before it pumps: the hand a settlement frees takes the next message in the same call |
| ConsumerLaws.OneSettlementPerPoll | src/Consumer.cpp:237-258 | with two or more settlements pending, poll throws: only the first can find its delivery |
| ConsumerLaws.PollIsASchedule | src/Consumer.cpp:235-261 | an undisturbed poll is a schedule of settlements, a delivery and its end |
| ConsumerRuns.StartIsReady | src/Consumer.cpp:151-164 | a start that succeeds leaves a topic that can take its dead letters, on whatever broker it finds |
| ConsumerRuns.PollIsARun | src/Consumer.cpp:235-261 | an undisturbed poll is one run of the thread steps: settlements, a take, the handler's decision with its count, carrying it out |
| ConsumerRuns.RestartIsARun | src/Consumer.cpp:151-164 | a start that succeeds, made again at any point, is one run of permitted steps |
| ConsumerRuns.ConsumersKeepStep | src/Consumer.cpp:151-261 | over the whole life of a started consumer, closes and restarts included, with others acting between any two of those steps, its counters equal its transport's plus the one decision it is carrying out, and received = acks + rejects + requeues + outstanding + returned |
| ConsumerClass.SettlementQueue.Push | include/motus/Consumer.hpp:80-84 | appended at the end |
| ConsumerClass.SettlementQueue.TryPop | include/motus/Consumer.hpp:87-94 | the oldest settlement is removed and returned, nothing when empty |
| ConsumerClass.Consumer.Create | src/Consumer.cpp:120-149 | over this backend construction fails exactly when no handler is given |
| ConsumerClass.Consumer.AttachSettlementQueue | include/motus/Consumer.hpp:218-222 | the queue's settlements become the consumer's |
| ConsumerClass.Consumer.Start | src/Consumer.cpp:151-164 | option check, declaration and subscription in order, each refusal stopping the rest |
| ConsumerClass.Consumer.Poll | src/Consumer.cpp:235-261 | settle what was pushed, then pump; counters, broker and transport as the model says, exceptions included |
| ConsumerClass.Consumer.SettleAll | src/Consumer.cpp:243-257 | the settling loop is the fold of settle over the pending settlements in push order |
| ConsumerClass.Consumer.Tick | src/Consumer.cpp:188-228 | one counter per disposition |
| LogSinkClass.AsyncLogSink.Enqueue | src/Logger.cpp:77-98 | accepted and appended, or counted as dropped; every accepted record stays served, at the sink or pending, in order |
| LogSinkClass.AsyncLogSink.TakeNext | src/Logger.cpp:143-149 | the worker takes the front record; no accepted record is skipped |
| LogSinkClass.AsyncLogSink.CountFailure | src/Logger.cpp:157-160 | a throwing sink is counted as a drop |
| LogSinkClass.AsyncLogSink.Finish | src/Logger.cpp:162-166 | flushers are notified exactly when every accepted record has been through the sink |
| LogSinkClass.AsyncLogSink.MayReturn | src/Logger.cpp:100-104 | flush may return exactly when every record accepted so far has been through the sink |
| LogSinkClass.AsyncLogSink.WorkOff | src/Logger.cpp:137-168 | the undisturbed worker serves every accepted record in order, ends drained with no bytes pending, and counts one drop per failure |
| LogLaws.AcceptedIffItFits | src/Logger.cpp:82-90 | a record is accepted exactly when it keeps within 1024 lines and 1048576 bytes |
| LogLaws.ApplyKeepsOk | src/Logger.cpp:77-168 | every step of callers, worker and flushers keeps bounds, accounts, order and wake-ups |
| LogLaws.HandoffIsBounded | src/Logger.cpp:118-119 | over every interleaving at most 1024 lines and 1 MiB pend, and the byte count is the true sum |
| LogLaws.EveryWriteIsAccounted | src/Logger.cpp:77-98 | writes = delivered + sink-failed + pending + in the sink + refused; dropped = refused + sink-failed unless the sink is throwing just now |
| LogLaws.SinkSeesAcceptanceOrder | src/Logger.cpp:137-155 | the sink is handed every accepted record once, in acceptance order |
| LogLaws.FlushWaitsForAll | src/Logger.cpp:100-104 | a flush that returned has seen everything accepted before it through the sink |
| LogLaws.StuckMeansDone | src/Logger.cpp:144-165 | no wake-up is lost: where no thread can go on, nothing is pending and no flush waits |
| LogLaws.FlushComesBack | src/Logger.cpp:100-104 | if writing stops and the sink always comes back, flush returns after a bounded number of steps, whatever their order |
| SimpleAmqp.SimpleAmqpTransport.OpenChannel | src/transport/SimpleAmqpTransport.cpp:193-205 | connected only once the new channel exists; a failure changes nothing |
| SimpleAmqp.SimpleAmqpTransport.Connect | src/transport/SimpleAmqpTransport.cpp:207-214 | opens the channel |
| SimpleAmqp.SimpleAmqpTransport.Close | src/transport/SimpleAmqpTransport.cpp:216-234 | channel, connection, subscription and handler are gone; policy and declaration stay |
| SimpleAmqp.SimpleAmqpTransport.IsReady | src/transport/SimpleAmqpTransport.cpp:236-240 | a ready transport with a subscription has its consumer on the topic asked for, on the channel it has now, as long as its calls were orderly |
| SimpleAmqp.SimpleAmqpTransport.EnsureTopic | src/transport/SimpleAmqpTransport.cpp:242-285 | the topic is remembered only after the library accepted it |
| SimpleAmqp.SimpleAmqpTransport.StartConsuming | src/transport/SimpleAmqpTransport.cpp:361-381 | a consumer for the stored topic on the current channel, or an exception |
| SimpleAmqp.SimpleAmqpTransport.Subscribe | src/transport/SimpleAmqpTransport.cpp:383-399 | the refusals in order; subscribed only once consuming started |
| SimpleAmqp.SimpleAmqpTransport.SetReconnectPolicy | src/transport/SimpleAmqpTransport.cpp:401-409 | the count of failures and the backoff start over |
| SimpleAmqp.SimpleAmqpTransport.Restore | src/transport/SimpleAmqpTransport.cpp:431-437 | channel, declaration and consumer are restored in order, stopping where a step throws |
| SimpleAmqp.SimpleAmqpTransport.ServiceReconnect | src/transport/SimpleAmqpTransport.cpp:411-458 | at most one attempt, none when disabled, exhausted or backing off |
| SimpleAmqp.SimpleAmqpTransport.Attempt | src/transport/SimpleAmqpTransport.cpp:425-457 | what one attempt, successful or not, leaves behind |
| SimpleAmqp.SimpleAmqpTransport.Pump | src/transport/SimpleAmqpTransport.cpp:460-505 | readiness, loss and reconnection within one call; attempts stay bounded and spaced, and a restored connection has its consumer |
| ReconnectLaws.AttemptsAreBoundedAndSpaced | src/transport/SimpleAmqpTransport.cpp:411-458 | over any run never more than maxAttempts failures in a row, and each attempt waits out the delay after the failure before it |
| ReconnectLaws.DelayIsIntendedIff | src/transport/SimpleAmqpTransport.cpp:448-450 | the delay is min(maxDelay, initialDelay * 2^(k-1)) if and only if the 64-bit shift does not overflow or its wrapped value reaches maxDelay |
| ReconnectLaws.BackoffIsKept | src/transport/SimpleAmqpTransport.cpp:448-452 | for policies whose last shift fits, attempt k + 1 starts no sooner than that delay after failure k |
| ReconnectLaws.DefaultPolicyFits | include/motus/transport/ITransport.hpp:546-557 | the shipped defaults never overflow: five attempts, 250 ms doubling up to 4000 ms, more would be capped at 5000 |
| ReconnectLaws.OffByDefault | include/motus/transport/ITransport.hpp:546-549 | until a policy is set no run ever makes an attempt |
| ReconnectLaws.ShiftCanOverflow | src/transport/SimpleAmqpTransport.cpp:448-450 | a 1 ms initial delay has no backoff at all after 64 failures in a row |
| ReconnectLaws.GivesUpForGood | src/transport/SimpleAmqpTransport.cpp:415-420 | once exhausted, every later pump answers false and tries nothing until the policy is set or the caller connects |
| ReconnectLaws.DeadMeansGivenUp | src/transport/SimpleAmqpTransport.cpp:460-466 | pump answers false exactly when the connection is gone and no attempt may be made |
| ReconnectLaws.PumpSays | src/transport/SimpleAmqpTransport.cpp:460-548 | pump throws exactly when it received a message whose handling threw, says dead exactly when the connection is gone for good, and alive in every other case, leaving everything as it was unless the connection is lost |
| ReconnectLaws.AttemptIff | src/transport/SimpleAmqpTransport.cpp:411-458 | exactly when an attempt is made, when it succeeds, and what it leaves in the counters, the statistics and the backoff |
| ReconnectLaws.PolicyStartsOver | src/transport/SimpleAmqpTransport.cpp:401-409 | after setting a policy the next pump on a lost connection tries at once, whatever failed before |
| ReconnectLaws.CallsSay | src/transport/SimpleAmqpTransport.cpp:242-399 | the refusals of ensureTopic and subscribe, each exactly when, and what a success leaves |
| ReconnectLaws.ConnectAndCloseSay | src/transport/SimpleAmqpTransport.cpp:193-234 | connect makes the transport usable or changes nothing; close drops channel, subscription and handler and keeps the rest |
| ReconnectLaws.RedeclaresAsDeclared | src/transport/SimpleAmqpTransport.cpp:434-436 | after any run an attempt that opens the channel redeclares once, with the options of the last declaration that went through; nothing else declares |
| ReconnectLaws.TopicFollowsCalls | src/transport/SimpleAmqpTransport.cpp:280-396 | under the topic last declared or subscribed to |
| ReconnectLaws.ReadyMeansConsuming | src/transport/SimpleAmqpTransport.cpp:429-457 | over any orderly run, ready with a subscription means the consumer is registered on the channel of now, even after an attempt that failed with the channel already open |
| ReconnectLaws.SecondConnectForgetsConsumer | src/transport/SimpleAmqpTransport.cpp:207-214 | a connect breaks that exactly when it succeeds while subscribed |
| ReconnectLaws.OtherTopicTakesOver | src/transport/SimpleAmqpTransport.cpp:280-282 | declaring while subscribed breaks it at the next reconnection exactly when the topic is another one |
| ReconnectLaws.RecoversInOneAttempt | src/transport/SimpleAmqpTransport.cpp:429-444 | one attempt against a healthy broker restores connection and consumer, whatever failed before |
| ReconnectLaws.ClosedTransportReconnects | src/transport/SimpleAmqpTransport.cpp:460-466 | after close, pump makes an attempt exactly when the policy is enabled, has attempts left and is not backing off, and is ready again exactly when that attempt succeeds |

## Left out

- Integer widths: sequence numbers, depths, sizes and counters are unbounded here, 64, 32 and 64 bits in the program; the version accumulator and the backoff shift are the places where width matters, and there it is modelled.
- Characters: a Dafny char stands for one byte of a std::string.
- Time: pump's slice and sleeps become a number of attempts; clock readings are inputs; overflow of the clock's own time arithmetic is not modelled.
- Mutexes: one critical section is one step; memory below that level is not modelled. `_dropped` is atomic in the program and steps on its own here.
- Out-of-memory exceptions, diagnostic text, and destructors other than their return of outstanding deliveries.
- Re-entrancy: handlers and sinks that call back into the same transport, or a sink that calls flush.
- Endpoint and name data: connect's endpoint, capability names, consumer tags.
- InMemory.InMemoryTransport.Pump: in the class no other transport acts between two turns of its loop or during the handler; `SessionLaws.PumpAmongIsASchedule` is about a pump among others.
- SessionLaws.PumpIsASchedule: is about that undisturbed pump, the lemma after it about the other one.
- ConsumerLaws.PollIsASchedule: is about an undisturbed poll; interference inside a poll is what `ConsumerRuns` is about.
- InMemory.InMemoryTransport.Subscribe: a handler is taken to be present exactly while subscribed, so the refusal of an empty one is not modelled.
- InMemory.InMemoryTransport.ReturnOutstanding: counts a delivery as returned when its requeue happens, the program clears its map after the last one; no other transport can see the difference.
- ConsumerClass.Consumer.Poll: the closure's counting is applied when pump comes back and nothing else acts during the call; `ConsumerRuns` has the finer steps. What the handlers do is an input of each call, so handlers may keep state between calls.
- FanoutLaws.GroupedPublishIsExact: assumes that every deadLetter destination reached has its forensic topic and that none of them is the forensic topic of another; without that assumption PublishFrame still says what is untouched, and with room everywhere GroupedPublishWithRoom needs neither.
- ReconnectLaws.ReadyMeansConsuming: assumes one topic per transport and no second connect while subscribed; the lemmas after it show each assumption is needed.
- ReconnectModel.Delay: a left shift that overflows a signed 64-bit count is taken to keep the low 64 bits, which the language only promises from C++20 on and for shifts below 64.
- Sending, receiving and queue arguments of SimpleAmqpTransport: calls into a foreign library; the library is not part of this model.
- AmqpCppTransport and AmqpConnection: built on callbacks of a foreign library; they are not part of this model.
- Factory, Producer and MessagePublisher: selection and forwarding only.
- Log levels, formatting, timestamps, environment variables and the replaceable sink's own lock.
