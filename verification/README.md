# A verified model of the events service

The events service is a publish/subscribe hub on top of MQTT. Clients publish events under a type
URL, and streams and automation scripts subscribe to type URLs. The heart of it is the broker: maps of
receivers, topics and retained messages behind two locks, background goroutines that subscribe and
unsubscribe on the MQTT session, a handler that rebuilds the session after a reconnect, and bounded
channels that each subscriber drains and finally closes.

This project models the broker in two layers and ties them together, and adds the automation event
pipeline, the drivers in the events service, the service lookup and the archive unpacking.

* `BrokerHeap` is the broker as the program holds it: maps of slices over backing arrays that are
  shifted in place while they are ranged over. Each critical section is a method with the loops of
  the source.
* `BrokerMachine` is the broker as interleaved goroutines. A state holds the program point of every
  goroutine, the channels, the broker's maps, the MQTT session and histories; a step is what one
  goroutine does between two points at which another one may run. A dispatch holds the read lock over
  many separate steps. Every claim about "every run" quantifies over all step sequences from `INIT`.
* `ReceiverLists` is what both layers share: the receiver lists as values, and the exact effect of
  the in-place removal. `BrokerRefinement` proves that a critical section run on the heap ends where
  the corresponding steps of the machine end, under any naming of the channels.

`BrokerLocks`, `BrokerDispatch`, `BrokerArrivals`, `BrokerRetained`, `BrokerSafety`, `BrokerSession`, `BrokerReconnect`
and `BrokerDrain` hold invariants over all runs of the machine. `BrokerNecessity` shows, for whole
families of states, what happens when a rule those results assume is broken; `BrokerWitness` reaches
such states from the initial one, with a connection and with messages on subscribed topics only.
`BrokerRecovery` repairs a lost connection, and `BrokerTidiness`, `BrokerConnection` and `BrokerGreeting` show that the rules of the safety and
liveness results are exact. `Topics`, `Service`, `Automation`, `Unpack` and `Endpoint` follow the files
they are named after.

`dafny verify dfyconfig.toml` checks the whole project.

## The steps of the machine

| step | source |
|---|---|
| MsgLock, MsgSend, MsgDrop, MsgEnd | handleMessage from the read lock on, one step for each send (`internal/broker/broker.go`, 208 to 226) |
| Announce, SubAppend, SubGreet, SubFinish | Subscribe (93 to 108); `Announce` is a writer queueing at the RWMutex, after which no new reader enters |
| ContextDone, ClsRemove, ClsClose | the closing goroutine of Handle and UnsubscribeAll (`internal/broker/subscriber.go`, 37 to 47; `broker.go`, 132 to 174) |
| FlStart, LockConn, FlCall, FlStore, FlLeave | subscribe and its singleflight (110 to 130); `FlStore` ends the function, `FlLeave` takes the flight out of the singleflight table |
| UnCall | the unsubscribe goroutine (159 to 172) |
| OcLock, OcSub, OcEnd | HandleOnConnect (71 to 91) |
| Take, StopConsumer | the send loop of Handle (`subscriber.go`, 73 to 83) |
| Arrive, Request, PublishRequest, ConnectionLost, ConnectionUp | the environment |

## What was found

* Removing a channel in place is the order-preserving filter exactly when the channel occurs at most
  once in the list. `[m, m]` keeps `m`; `[m, a, m, b]` becomes `[a, b, b]`. A stream can name a type URL
  twice, and then a send on a closed channel follows (`BrokerWitness.RepeatedSubscribeFromStart`).
* The receive loop of `Handle` may call `Subscribe` after `UnsubscribeAll` and `close`, with the same
  result (`BrokerWitness.LateSubscribeFromStart`). The comment in `internal/broker/subscriber.go` at
  line 41 promises that the channel cannot be used by the broker after `UnsubscribeAll`. That holds
  if streams keep two rules, which the code does not enforce, and the rules are exact: from every
  state that runs within the rules can reach, a Subscribe can lead to a send on a closed channel if
  and only if it breaks one of them and does not hang first (`BrokerTidiness.TidyIsExact`).
* single.Do is keyed by topic, but its function stores one type URL. A subscribe of `x` that joins the
  flight of `type.googleapis.com/x` is forgotten: its receiver is registered, and its URL is neither in
  `topics` nor pending nor failed; when the other stream leaves, the topic is unsubscribed under it
  (`BrokerWitness.ForgottenFromStart`).
* A flight stays in the singleflight table for a moment after its function has released both locks. If
  the only receiver leaves and another one subscribes the same URL in that moment, the newcomer joins
  the flight that has already stored its URL and is forgotten, even if all keys are plain
  (`BrokerWitness.WindowFromStart`). These two ways of joining a flight are exactly what breaks
  interest (`BrokerSession.InterestKeptIff`).
* `subscribe` and the unsubscribe goroutine use `b.conn` without the nil check that `Publish` has
  (`BrokerWitness.EarlySubscribeFromStart`). A Subscribe can lead to that call exactly when there has
  been no connection yet and it does not panic on a closed channel first
  (`BrokerConnection.NilConnIsExact`).
* An unsubscribe goroutine that runs after a newer subscribe of the same topic leaves the topic in
  `topics` but not on the session (`BrokerWitness.OverlapFromStart`); so does one whose key differs
  from a subscribed one by the prefix (`BrokerWitness.PrefixedKeyFromStart`).
* `subscribe` takes a call that returns no error for a subscription. The blocking client returns only the
  error of the token, and a SUBACK can carry a failure code (section 3.9.3 of MQTT 3.1.1). If the server
  refuses and the client reports no error, the topic is in `topics` and never reaches the session
  (`BrokerWitness.RefusedFromStart`). So the renewal results assume that success means granted; a flight
  for which it does not keeps the session renewed exactly if it had the topic before
  (`BrokerWitness.GrantIsExact`).
* Nothing that is published to the topic of a key with the `type.googleapis.com/` prefix reaches the
  list of that key (`Topics.PrefixedKeyIsStarved`).
* A greeting that meets a full channel whose consumer has gone keeps `l` locked for ever, unless the
  channel is about to be closed (`BrokerWitness.StuckFromStart`, `BrokerLocks.StuckForever`). These are
  exactly the greetings that never end (`BrokerGreeting.GreetingEndsIff`).
* A wrapped operation reports an empty success, and loses the callback's result or error, whenever its
  function returns before the event loop has run the callback; it reports the callback's outcome exactly
  when the loop was faster (`Automation.WrapOperation`).

## Model

| member | source | states |
|---|---|---|
| Topics.RoutingAgreement | internal/broker/broker.go:208-233 | for a key k, publishing to the topic of k and dispatching to list k agree on every event if and only if k does not start with type.googleapis.com/ |
| Topics.KeysAndTopics | internal/broker/broker.go:208-233 | in plain letters: the key of an event is its type URL without a leading type.googleapis.com/, and unchanged if that is not there; the topic is cis/protobuf/events/ and that key |
| Topics.TopicsOf | internal/broker/broker.go:159-165 | the topics of a set of keys are exactly those strings |
| Topics.SameTopicIffSameKey | internal/broker/broker.go:229-233 | two type URLs share an MQTT topic exactly when dispatch looks them up under the same key |
| Topics.PrefixedKeyIsStarved | internal/broker/broker.go:208-220 | an event published to the topic of key k is dispatched to list k if and only if k does not start with type.googleapis.com/ |
| ReceiverLists.RangedIsRemoval | internal/broker/broker.go:138-145 | shifting the array under the range loop and cutting off the last cell is the one-pass scan that skips the element after every removal, refilled with copies of the last element |
| ReceiverLists.RemoveIsFilterIff | internal/broker/broker.go:136-151 | the in-place loop yields the order-preserving filter if and only if the channel occurs at most once |
| ReceiverLists.RemoveLength | internal/broker/broker.go:141-141 | whenever the channel occurs, however often, the list gets exactly one shorter |
| ReceiverLists.OthersKeepOrder | internal/broker/broker.go:136-151 | on every list the other channels keep their order and none is lost; the only distortion is the last entry repeated once for every removal after the first |
| ReceiverLists.SurvivesIff | internal/broker/broker.go:136-151 | the channel is still listed after its own UnsubscribeAll if and only if it stood twice side by side, or occurred twice and was last |
| ReceiverLists.RemoveNoDup | internal/broker/broker.go:136-151 | on duplicate-free lists the result is the filter, is duplicate-free, and has exactly the other channels as members |
| ReceiverLists.SubscribeAddsPair | internal/broker/broker.go:97-97 | read as a set of (type URL, channel) pairs, the lists gain exactly the pair subscribed |
| ReceiverLists.UnsubscribeRemovesPairs | internal/broker/broker.go:136-151 | with duplicate-free lists UnsubscribeAll removes exactly the pairs of its channel, and every list is its own order-preserving filter |
| ReceiverLists.CleanupExact | internal/broker/broker.go:147-157 | a key is marked for cleanup exactly when its list was not empty and has become empty, on any lists |
| BrokerHeap.Broker.AddReceiver | internal/broker/broker.go:97-97 | append, in place or into a new array, adds the channel to the list of its key and changes no other list, and arrays of distinct keys stay disjoint |
| BrokerHeap.Broker.Subscribe | internal/broker/broker.go:93-108 | the new lists, the retained message sent, and when it starts a goroutine, hangs on a full channel or panics on a closed one |
| BrokerHeap.Broker.RemoveWhileRanging | internal/broker/broker.go:138-150 | the loop that shifts the array it ranges over leaves RemoveInPlace of the list, and appends the key to the cleanup exactly once if the list was just this channel and never otherwise |
| BrokerHeap.Broker.RemoveFromAll | internal/broker/broker.go:136-151 | in whatever order the map yields its keys, every list becomes RemoveInPlace of itself, and the cleanup list holds each emptied key once |
| BrokerHeap.Broker.UnsubscribeAll | internal/broker/broker.go:132-157 | the new lists, the cleanup list without duplicates, and topics and retainedMsgs unchanged on every other key |
| BrokerHeap.Broker.SendAll | internal/broker/broker.go:220-226 | panics exactly if a listed channel is closed; otherwise each channel is offered the event once for each time it is listed and takes it while it has room |
| BrokerHeap.Broker.HandleMessage | internal/broker/broker.go:200-227 | the event handed on has the type URL and the payload that arrived, and is retained if it was or if the message came with the RETAIN flag; flagged ones are cached under the stripped type URL; the receivers of that type URL are offered it, and no other channel is written to |
| BrokerHeap.Broker.SubscribeTopic | internal/broker/broker.go:113-129 | panics exactly without a connection; topics grows exactly if the client reports success, and the session exactly if the server granted the request, in any combination of the two |
| BrokerHeap.Broker.UnsubscribeTopics | internal/broker/broker.go:159-172 | panics exactly without a connection; rewriting the list to topics in place, the session loses exactly those topics of the keys listed that the server drops, whether or not the call fails |
| BrokerHeap.Broker.HandleOnConnect | internal/broker/broker.go:71-91 | the connection is replaced, and the session gains the topics of exactly those entries that the server took, in any map order, whatever errors are reported |
| BrokerHeap.Broker.Publish | internal/broker/broker.go:176-198 | the three errors in the order they are checked; otherwise one message on the event's topic with the event's retained flag |
| BrokerRefinement.RenameRemove | internal/broker/broker.go:136-151 | the in-place removal treats channels only by identity |
| BrokerRefinement.SubscribeRefines | internal/broker/broker.go:93-108 | from every state in which SubAppend is enabled, Subscribe on the heap is the run SubAppend, SubGreet if a message is retained, SubFinish, and spawns exactly when SubFinish leaves a goroutine; or the same run up to the panic, or up to where SubGreet is not enabled |
| BrokerRefinement.UnsubscribeAllRefines | internal/broker/broker.go:132-174 | from every state in which ClsRemove is enabled, UnsubscribeAll on the heap is that step, and starts its goroutine exactly when the machine does, for the same type URLs |
| BrokerRefinement.SendRest | internal/broker/broker.go:220-226 | the machine's send loop run with no consumer at work ends with every channel offered the event as often as it is still ahead in the list |
| BrokerRefinement.HandleMessageRefines | internal/broker/broker.go:200-227 | handleMessage on the heap is MsgLock and the sends of the machine, up to MsgEnd or up to the panic; it panics exactly when a closed channel is registered |
| BrokerRefinement.SubscribeTopicRefines | internal/broker/broker.go:110-130 | for every answer that FlCall allows, the body of subscribe on the heap is the run FlCall, Announce, FlStore if the client reports success, FlCall if it does not, and a panic exactly when FlCall panics |
| BrokerRefinement.UnsubscribeTopicsRefines | internal/broker/broker.go:159-172 | the unsubscribe goroutine on the heap is the enabled step UnCall, and panics exactly when that does |
| BrokerRefinement.HandleOnConnectRefines | internal/broker/broker.go:71-91 | HandleOnConnect on the heap ends where LockConn, OcLock, one OcSub for every entry of topics, and OcEnd end, for every reply of the server and the client |
| BrokerRefinement.ResubRest | internal/broker/broker.go:82-90 | in whatever order the entries are taken, the re-subscribing loop adds the topics of exactly the entries granted and ends clean exactly if all succeeded |
| BrokerLocks.LockDiscipline | internal/broker/broker.go:71-227 | in every run: one holder of connLock, one writer of l announced, no reader with a writer inside, one flight for a topic, one dispatch, one closing goroutine for a channel; and by the program points alone, nobody waits for connLock while holding a lock or re-enters l |
| BrokerLocks.AccessUnderLocks | internal/broker/broker.go:71-227 | no data race: in every run the lists and topics change only with l locked for writing and nobody else at it, the cache only so or in the one dispatch at work, and the session and the connection only under connLock |
| BrokerLocks.DeadlockFree | internal/broker/broker.go:71-227 | with client calls that return, in every state with an unfinished goroutine some goroutine can move, or the consumer of a blocked greeting can, provided no greeting is jammed: on a full channel that is not closed, without a consumer, and with nobody about to close it |
| BrokerLocks.StuckForever | internal/broker/broker.go:99-102 | that proviso is needed: a jammed greeting stays jammed, and no run lets anyone waiting for l proceed |
| BrokerGreeting.GreetingEndsIff | internal/broker/broker.go:93-108 | the proviso is exact: a run in which the greeting gets through, or panics, exists if and only if it is not jammed; then steps of the broker and the consumers suffice, and otherwise no run at all does it, whatever the environment does |
| BrokerWitness.StuckFromStart | internal/broker/broker.go:99-102 | such a state is reached from the initial one by streams that keep the rules, with 100 events in the channel and somebody waiting for l |
| BrokerDrain.SchedulesAreFinite | internal/broker/broker.go:71-227 | without new requests, messages or failures the goroutines take at most a fixed number of steps, whatever the consumers do |
| BrokerDrain.CanDrain | internal/broker/broker.go:71-227 | from every state in which no greeting is jammed and the streams yet to append have their consumers, there is a schedule in which all goroutines finish or one panics |
| BrokerDrain.EveryScheduleFinishes | internal/broker/broker.go:71-227 | and so do all of them: from such a state every schedule that has gone as far as it can, and has not panicked, has finished all goroutines |
| BrokerDrain.StopsFinishedOrJammed | internal/broker/broker.go:71-227 | whatever the state: when nothing can move any more and nobody has panicked, all goroutines have finished or a greeting is jammed |
| BrokerDrain.DrainsToTheEnd | internal/broker/broker.go:71-227 | if the pending subscribes also keep the rules of BrokerSafety, all goroutines can run to completion without a panic |
| BrokerDispatch.DispatchExact | internal/broker/broker.go:208-226 | in every run an event, unchanged but for the RETAIN flag added, is attempted exactly for the receivers registered under its stripped type URL when the read lock was taken, in their order, each entry once |
| BrokerArrivals.HandledAsArrived | internal/broker/broker.go:200-218 | in every run the messages handled are the messages that arrived, in that order and each once, with the RETAIN flag added and nothing else changed; only the last can still be waiting for the read lock |
| BrokerDispatch.TimesOutOnlyWhenFull | internal/broker/broker.go:220-226 | in every run a send of the dispatch panics exactly on a closed channel, goes to the end of an open one with room, and times out only on an open one with 100 events, which leaves every channel as it is |
| BrokerDispatch.SubscriberFifo | internal/broker/subscriber.go:35-83 | in every run: taken followed by queued is what was enqueued, at most 100 are queued, the deliveries are those the log records as sent, and everything is in the order it happened |
| BrokerDispatch.AttemptsAddUp | internal/broker/broker.go:220-226 | conservation over every run: the events that entered a channel plus the sends to it that timed out are the attempts made on it, and, whenever no dispatch is in progress, as many as the channel was registered for the events handled |
| BrokerDispatch.LogGrows | internal/broker/broker.go:208-226 | history is never rewritten: later states only add entries, and attempts to the newest one |
| BrokerRetained.CacheIsHistory | internal/broker/broker.go:153-218 | in every run an event is cached under a type URL if and only if the log has it as handled with the RETAIN flag under that URL, and no later entry handled such an event or cleaned the URL up |
| BrokerRetained.LateSubscriberGreeted | internal/broker/broker.go:99-102 | in every run a subscriber that joined while a type URL had such an entry finds the event of that entry in its channel ahead of every event handled later |
| BrokerSafety.NoSendOnClosed | internal/broker/subscriber.go:37-71 | in every interleaving in which a stream names a type URL once and does not subscribe after its UnsubscribeAll, no send meets a closed channel, no channel is closed twice, and no registered channel is closed |
| BrokerTidiness.TidyIsExact | internal/broker/subscriber.go:37-71 | these rules are exact: in every state they can lead to, the Subscribe about to append can lead, by a continuation within the rules in which messages may come on any topic, to a send on a closed channel if and only if its channel has been removed, or is registered for that type URL already and any greeting can be sent |
| BrokerTidiness.StuckNeverSends | internal/broker/broker.go:99-102 | the case the condition leaves out is harmless: a greeting that hangs keeps everybody from sending |
| BrokerTidiness.TidyInvRun | internal/broker/subscriber.go:37-47 | within the rules a channel stays registered until it is removed, and has a closing goroutine from the end of its stream until it is closed |
| BrokerSafety.NothingPanics | internal/broker/broker.go:110-174 | if Subscribe also waits for the first connection, nothing panics at all |
| BrokerConnection.NilConnIsExact | internal/broker/broker.go:110-118 | that rule is exact: in every state it can lead to, the Subscribe about to append can lead, by a continuation within the rule, to a call on a nil connection if and only if there has been no connection yet and it has no greeting to send to a closed channel |
| BrokerSafety.ClosedOnceAfterRemoval | internal/broker/subscriber.go:37-47 | whatever the callers do, no channel is closed twice, and one is closed only after its UnsubscribeAll |
| BrokerSafety.EventsAtMostOnceInOrder | internal/broker/broker.go:208-226 | under the same rules the events that reach a subscriber belong to distinct handled events, in the order of handling, for which it was registered |
| BrokerSession.InterestNeverForgotten | internal/broker/broker.go:93-157 | in every run in which no unsettled subscribe joins a flight of another type URL or one that has stored its URL or failed already, a type URL with a receiver is in topics, or a subscribe of it is outstanding, or the last attempt failed |
| BrokerSession.PlainKeysSuffice | internal/broker/broker.go:110-113 | the rule holds along every run with keys without the type.googleapis.com/ prefix in which no subscribe enters while a flight of its topic that has run its course is still in the singleflight table |
| BrokerSession.InterestKeptIff | internal/broker/broker.go:110-113 | the rule is exact: the last hope of a type URL with a receiver survives its entry into single.Do if and only if it joins no flight of another URL and none that has run its course |
| BrokerSession.ForeignFlightForgets | internal/broker/broker.go:110-130 | a subscribe that joins the flight of another URL, or one that has run its course, is forgotten for good, even if that flight succeeds, until somebody subscribes its URL anew |
| BrokerWitness.ForgottenFromStart | internal/broker/broker.go:110-130 | from the initial state: two streams name one type with and without the prefix; the second ends up registered but neither subscribed, pending nor failed, and loses its topic when the first one leaves |
| BrokerWitness.WindowFromStart | internal/broker/broker.go:110-130 | the other half of the rule is needed with prefix-free keys too: from the initial state, the only receiver leaves and another one subscribes the same URL while the flight that stored it is still in the table; the newcomer is registered but neither subscribed, pending nor failed, and its topic is off the session |
| BrokerReconnect.ReconnectRenews | internal/broker/broker.go:71-91 | across any number of losses: once a reconnect handler finishes with all its re-subscribes granted and no loss since it began, every entry of topics is subscribed on the session, and stays so until the next loss, provided the keys of every unsubscribe that calls the server share no topic with topics at that time, and the client reports success only for what the server has granted |
| BrokerReconnect.ReconnectRenewsApart | internal/broker/broker.go:71-173 | the same if success means granted, keys are prefix-free and no type URL has a pending subscribe and a pending unsubscribe at once |
| BrokerReconnect.NothingOffline | internal/broker/broker.go:71-130 | in every run, while the network is down the session holds nothing, and a call made then is neither granted nor reported as granted |
| BrokerRecovery.LossIsRepaired | internal/broker/broker.go:71-91 | a loss can be repaired: from every state with nobody at connLock or announced as a writer of l, the connection can be lost and come back, and if the server then grants what it is asked, the session ends with the topics of exactly the entries of topics |
| BrokerReconnect.ClearIsExact | internal/broker/broker.go:159-172 | the first proviso is exact: a renewed session stays renewed whatever the server drops of what it is asked to drop, if and only if the keys to be unsubscribed share no topic with topics |
| BrokerWitness.GrantIsExact | internal/broker/broker.go:110-130 | so is the second: from every renewed state with no one at l, a flight whose call reports success and which then stores its URL leaves the session renewed if and only if the server granted the topic now or had it before |
| BrokerWitness.RefusedFromStart | internal/broker/broker.go:117-125 | and it is needed: from the initial state, with no unsubscribe at all, a refused subscription that the client reports as made leaves a type URL with a receiver in topics and nothing on the session, connected and counted as renewed |
| BrokerReconnect.InterestReachesServer | internal/broker/broker.go:71-173 | while the session is renewed and these provisos and the rule on flights hold, every type URL with a receiver has its topic on the session, or is pending, or its last attempt failed |
| BrokerWitness.PrefixedKeyFromStart | internal/broker/broker.go:159-172 | prefix-free keys are needed: from the initial state, with no pending subscribe and unsubscribe of one type URL at any time and nothing refused, a stream with the prefixed key takes the topic of another one with it |
| BrokerNecessity.LateSubscribePanics | internal/broker/subscriber.go:49-71 | from every idle state, a Subscribe after the channel was removed, closed already or not, leads to a send on a closed channel |
| BrokerWitness.LateSubscribeFromStart | internal/broker/subscriber.go:37-71 | a run from the initial state to that panic, with messages on subscribed topics only |
| BrokerNecessity.SurvivorPanics | internal/broker/broker.go:136-151 | from every idle state, a channel that survives its own removal leads to a send on a closed channel |
| BrokerNecessity.RepeatedSubscribePanics | internal/broker/subscriber.go:61-64 | from every idle state, one more Subscribe of a type URL by a registered stream with room leads to a send on a closed channel when it ends |
| BrokerNecessity.DoubleSubscribePanics | internal/broker/subscriber.go:61-64 | so do two Subscribes by any stream with room |
| BrokerWitness.RepeatedSubscribeFromStart | internal/broker/subscriber.go:61-64 | a run from the initial state to that panic, with messages on subscribed topics only |
| BrokerNecessity.EarlySubscribePanics | internal/broker/broker.go:110-118 | from every idle state without a connection, subscribing a new type URL leads to a call on a nil connection |
| BrokerWitness.EarlySubscribeFromStart | internal/broker/broker.go:110-118 | a run from the initial state to that panic |
| BrokerNecessity.OverlapLosesTopic | internal/broker/broker.go:159-172 | from every idle connected state, the last receiver leaving and another one joining at once can leave a topic in topics that the session no longer has, with the connection counted as renewed |
| BrokerWitness.OverlapFromStart | internal/broker/broker.go:159-172 | a run from the initial state to that loss, with nothing refused and, if the type URL is prefix-free, with prefix-free keys throughout: so the rule that nothing is pending at once is needed by itself |
| Service.FakeBidiStream.Receive | internal/service/events_service.go:30-44 | hands out the type URLs in order, then io.EOF without moving |
| Service.ReceiveLoop | internal/broker/subscriber.go:49-83 | over a SubscribeOnce stream, with the send loop taking items meanwhile: it ends after len+1 receives with the broker as if Subscribe were folded over the type URLs and every greeting passed on in order; it ends whenever the greetings have room or the consumer keeps taking, and without a consumer only if they have room |
| Service.SubscribeEachList | internal/service/events_service.go:55-58 | each list gains one entry for every mention of its key in the request |
| Service.DuplicatesComeFromRequest | internal/service/events_service.go:55-58 | a SubscribeOnce keeps a list duplicate-free if and only if its request names the key at most once |
| Service.PublishStream | internal/service/events_service.go:78-98 | publishes a prefix of the messages in order: all on success, otherwise exactly those before the first missing event, failed publish or stream error, and reports that very error |
| Automation.EventLoop.Turn | internal/automation/core.go:92-100 | running the oldest job, with its argument slice filled by index, appends the call of its callback on null with one object for each argument in order, which is exactly the call that was due |
| Automation.WrapOperation | internal/automation/core.go:80-145 | queues one call, or none if the operation never starts, and calls directly if no client can be made; a wrapped operation reports the value of the callback as its result, or its error as its error, exactly when the loop got to it before the function returned, and an empty success otherwise |
| Automation.OnEvent | internal/automation/core.go:177-182 | a fresh channel joins the list of its event once, and its greeting always has room |
| Automation.Forward | internal/automation/core.go:184-199 | whatever other registrations and the loop do meanwhile, the calls of this registration are those it had, followed by one for each forwarded event in order |
| Automation.PositionsExact | internal/automation/core.go:184-199 | the forwarded events are in order, each once, and exactly those that can be converted and whose operation starts |
| Automation.DirectPathOmitsFailures | internal/automation/core.go:91-101 | without operations exactly the failed conversions are left out |
| Automation.CallbacksInEventOrder | internal/automation/core.go:177-200 | end to end, in every run within the rules: what a registration's consumer took from its channel becomes calls of its callback on the event loop, one for each forwarded item in the order of enqueuing, whatever else is queued; those that are not greetings belong to distinct handled events in the order of handling |
| Automation.PositionsOrdered | internal/automation/core.go:184-199 | the items that lead to a callback are distinct, in the order of enqueuing, and their deliveries in the order of handling |
| Unpack.Disk.UnpackTar | internal/automation/bundle/unpack.go:49-86 | succeeds if and only if the reader ends with io.EOF and every entry fits after those before it: a new directory or a readable regular file in a directory listed earlier; the tree then has exactly the listed directories, and each file holds the data of its last entry; otherwise nothing is left, and the error is that of the first entry that does not fit |
| Unpack.Disk.UnpackZip | internal/automation/bundle/unpack.go:117-148 | succeeds if and only if nothing that an entry needs as a directory was written as a file, and every file opens, can be read and is no directory; the tree then has exactly the directories listed or needed, and each file holds the data of its last entry; otherwise nothing is left, and the error is that of the first entry that does not fit |
| Unpack.TarUnpacks | internal/automation/bundle/unpack.go:49-86 | the fold over the tar entries succeeds exactly on such listings, builds that tree, and fails with the reason of the first entry that does not fit |
| Unpack.ZipUnpacks | internal/automation/bundle/unpack.go:117-148 | the same for the fold over the zip entries |
| Unpack.TarStepClosed | internal/automation/bundle/unpack.go:61-77 | every intermediate tree of tar unpacking is parent-closed |
| Unpack.ZipStepClosed | internal/automation/bundle/unpack.go:121-136 | every intermediate tree of zip unpacking is parent-closed |
| Unpack.TarIsStrictZip | internal/automation/bundle/unpack.go:49-147 | on every listing tar unpacking succeeds if and only if zip unpacking does and no item lacks its parent or lists a directory that is there; then both build the same tree |
| Unpack.ZipRebuilds | internal/automation/bundle/unpack.go:117-147 | zip unpacking rebuilds a tree from any listing that covers it, in any order and with repetitions |
| Unpack.BothRebuild | internal/automation/bundle/unpack_test.go:80-111 | from a parents-first listing of a tree both formats rebuild exactly that tree |
| Endpoint.QueryIsPrefix | internal/automation/modules/connect/module.go:117-122 | the joined parts are dot-bounded prefixes of the service name, and the last one is the name |
| Endpoint.PrefixIsQuery | internal/automation/modules/connect/module.go:117-122 | every dot-bounded prefix is one of the queries |
| Endpoint.QueriesOrdered | internal/automation/modules/connect/module.go:119-123 | more parts make a longer query, so the reversed list is longest first |
| Endpoint.Reverse | internal/automation/modules/connect/module.go:123-123 | reverses the array in place |
| Endpoint.ResolveEndpoint | internal/automation/modules/connect/module.go:116-145 | names the first address of the longest dotted prefix for which discovery answers with a non-empty list, and fails if and only if it answers every prefix with an error or an empty list |

## Left out

- BrokerLocks.DeadlockFree: client calls always return. The blocking client waits without a timeout, so an acknowledgement that queues behind a message handler, which waits for l, while HandleOnConnect waits for it with l read-locked, would be a circular wait; the client's internal queue is not part of this model.
- BrokerSafety.NoSendOnClosed: the two rules are assumptions about streams; `BrokerTidiness.TidyIsExact` shows that they are exact.
- BrokerSession.InterestNeverForgotten: the rule on flights is an assumption about type URLs and schedules; `BrokerSession.InterestKeptIff` shows that it is exact.
- BrokerReconnect.ReconnectRenews: the provisos are assumptions about schedules and about the client; `BrokerReconnect.ClearIsExact` and `BrokerWitness.GrantIsExact` show that they are exact.
- BrokerReconnect.InterestReachesServer: the same provisos, and the rule on flights.
- BrokerDrain.CanDrain: assumes that no greeting is jammed and that the streams yet to append have their consumers, and so do BrokerDrain.EveryScheduleFinishes and BrokerDrain.DrainsToTheEnd. By `BrokerGreeting.GreetingEndsIff` a jammed greeting never ends; a stream that has not appended yet is assumed live because its channel may still fill up.
- Service.ReceiveLoop: the consumer takes its items between the passes of the loop; the `Request` step of the machine allows any number of concurrent calls of Subscribe for a channel and so covers every schedule.
- BrokerHeap.Broker.HandleMessage: the contents of the buffers after a panic are not described, because the process ends there.
- A message can arrive at any time in the machine, also on a topic that is not subscribed any more; the runs of `BrokerWitness` use subscribed topics only.
- The MQTT client, the network and time: the session is a set of topics; calls succeed or fail, and may have taken effect at the server although they fail, or not although they succeed. The five-second timeout of a dispatch is a drop that can happen whenever the channel is full.
- Losing the connection clears the session (Clean Session, section 3.1.2.4 of MQTT 3.1.1). A server clears the RETAIN flag of messages sent to established subscriptions (section 3.3.1.3 of MQTT 3.1.1), so the cache is specified against messages that arrive flagged.
- Message handlers run one at a time, which is the client's default and which the broker does not change.
- A second caller of a running singleflight flight only waits for it and does nothing after; in the machine it is gone at once.
- The states of the locks and the singleflight table are not stored but read off the program points.
- MQTT wildcards: type URLs are assumed to hold no `+` or `#`.
- Protobuf and JSON encoding: an event is its type URL, a payload and the retained flag. A message that does not decode has no effect and is not a step; one that decodes without an event would panic in `handleMessage` and is not modelled.
- Slice growth: a full slice moves to a fresh array of some larger capacity.
- The script runtime, the cron scheduler and the operation client: a FIFO queue of jobs, and an operation that runs its function at most once.
- `schedule`, `publish` and the other members of the core script module; the other script modules (fs, path, template, timeutil, fetch, encoding); the rest of the connect module.
- Archives: compression, permissions, opening the archive, and names with `..` components; names are lists of clean components.
- Configuration, bundle loading, server wiring, authentication and the command line tools.
