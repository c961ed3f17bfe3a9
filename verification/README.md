# MCloudTT, verified in Dafny

MCloudTT is an MQTT 5 broker whose instances synchronise through Redis. This project models its
three interacting state machines, connects them, and proves what every run of them keeps.

* **The topic registry** (`Topics.dfy`, over the broadcast channel of `Broadcast.dfy`). A class whose
  methods are proved against functions on registry values. `Broker.dfy` then takes those functions as
  the steps of one broker and proves safety over every interleaving of its sessions and the Redis task;
  `Resubscription.dfy` says exactly what a renewed subscription loses.
* **The client session** (`Session.dfy`, `ClientSession.dfy`). `Session` is the session as a state machine: an
  input is one branch of the event loop, a reaction is the list of effects that branch causes. `Client`
  is the object with its handlers, loops and in-place updates; whatever its event loop does is an
  execution of the state machine, cut short where the stream fails, inside a run of the broker in which
  all other sessions take their steps in between. `Subscriptions.dfy`, `Sharing.dfy`, `Turns.dfy` and
  `Cuts.dfy` hold what the handlers mean on values; `SessionRuns.dfy` and `News.dfy` conclude what the loop
  delivers and writes.
  The laws of the state machine are proved over all executions: `Acknowledgements.dfy` (wills and
  PUBACKs), `Replies.dfy` (answers, shutdowns and ends), `Retransmission.dfy` (QoS 1), `Deadline.dfy`
  (the idle timer), `Order.dfy` and `Scheduling.dfy` (which receiver is served); `Outcomes.dfy` restates
  them for the packets and timers that the loop meets.
* **The cluster** (`Cluster.dfy`, `RedisSync.dfy`). A distributed transition system with atomic Redis
  commands, FIFO queues, a bus that may lose any message for any broker, and brokers that join and crash
  at any time. `ClusterOnce.dfy`, `ClusterFlow.dfy`, `ClusterOrder.dfy` and `ClusterRetained.dfy` prove what
  every run keeps, `ClusterTurns.dfy` the exact condition for convergence; `RedisSync.dfy` is one broker's side
  as classes, with the load at start-up. `Locks.dfy` is who waits for whom.

`Sharing.PlayIsRun` ties the session object to the broker, and `Refinement.dfy` ties the broker's registry and
its Redis client to the cluster's steps.

Some desirable properties are false of this code. Each is stated with the exact condition under which the
code does meet it: `Topics.AddHarmlessIffUnknown` (with `Topics.AddStrandsReceivers`),
`Resubscription.ResubscribeCut`, `Acknowledgements.WillOnceIff` (with `Acknowledgements.WillTwice`),
`Retransmission.IntervalIsExactUnlessZero`, `Retransmission.LoopHeadCounters`,
`Deadline.IdleWaitsForEntries`, `Locks.FreeableIffNotGreeting`, `ClusterTurns.AgreesIffInTurn` (with `ClusterTurns.TwoWritersOverlap` and
`ClusterTurns.TwoBrokersDiverge`).

Verify everything with `dafny verify dfyconfig.toml`.

## Conventions

* A broadcast channel has 1024 slots, overwrites its oldest messages, stores nothing when it has no
  receivers, starts a receiver at the tail and reports a lag once. Channels are numbered "wires" beside the
  topic map, because a receiver keeps its channel even if the map no longer knows it.
* Arithmetic is that of a release build: the 32-bit expiry counter and the 16-bit `timeout + 2` wrap around.
* A stream is a budget: the number of operations that will still succeed, arbitrary and unknown to the program.
* A schedule is any list of events: those of the session's own loop and, in between and before every filter of a
  packet, those of all other sessions and of the bus.
* Serial numbers, `heard`, `applied`, `published`, `saved`, `past`, `log`, `trace`, `events` and `tale` are
  history. No step reads them to decide anything.

## Model

| member | source | states |
|---|---|---|
| Broadcast.QuiescentCount | src/topics.rs:13-14 | A backlog of n messages left alone yields exactly the last min(n, 1024) messages of the topic's log in order: in n receives if n <= 1024, and otherwise in one report of n - 1024 lost messages and 1024 receives |
| Topics.Topics.constructor | src/main.rs:83 | The shared registry starts empty and well formed |
| Topics.Topics.Add | src/topics.rs:13-23 | Fails exactly on a known topic, and in that case the channel has been replaced all the same |
| Topics.AddStrandsReceivers | src/topics.rs:15-22 | After `add` on a known topic its retained message is gone, the topic has a new empty wire that nobody hears, and no old receiver gets any later publish, which without it every one would get |
| Topics.AddHarmlessIffUnknown | src/topics.rs:13-23 | When `add` is harmless, for every registry: it keeps every channel with its retained message if and only if the name was unknown, and every live receiver goes on hearing its topic if and only if nobody listened to that name |
| Topics.Topics.Drop | src/topics.rs:41 | A receiver that goes out of scope leaves its wire with one receiver less and nothing else changed |
| Topics.Topics.Subscribe | src/topics.rs:25-33 | Never fails; the new receiver stands at the current tail of the topic's wire, created if missing |
| Topics.SubscribedChannel | src/topics.rs:25-33 | A subscription moves no topic to another wire, changes no retained message, adds one receiver to its own topic only and hands out a receiver at that topic's tail |
| Topics.Topics.SendMessage | src/topics.rs:60-69 | Fails exactly when the wire has no receivers, and then stores nothing |
| Topics.Topics.CreateAndSend | src/topics.rs:40-43 | A publish to a new topic creates it without receivers, so the message is heard by nobody, and no error arises |
| Topics.Topics.Publish | src/topics.rs:35-50 | Never fails; the new registry is that of the specification, whether or not the topic existed or anyone listens |
| Topics.PublishedTakes | src/topics.rs:35-50 | What a publish does, field by field and whatever its flags: a known topic keeps its wire, which, if it has receivers, is one longer and ends with the packet, having lost its oldest message only if it was full; an unknown topic is created without receivers; the packet is retained exactly if it is flagged; all other topics and wires are as before |
| Topics.PublishedChannel | src/topics.rs:35-50 | A publish moves no topic to another wire and sends on its own topic's wire only |
| Topics.PublishedValid | src/topics.rs:35-50 | A publish keeps the registry well formed: existing wires, one per topic, buffers of the right size |
| Topics.PublishedRetained | src/topics.rs:45-48 | A topic's retained message changes exactly on a retain-flagged publish to it, and to that packet, an empty payload included |
| Topics.PublishedRetainedMap | src/topics.rs:45-48 | The same for all topics at once, as the map that the cluster sees |
| Topics.Topics.GetRetainedMessage | src/topics.rs:52-58 | Reads the retained message of a topic, none for an unknown one |
| Broker.RunKeepsInv | src/topics.rs:13-69 | The invariant of registry, receivers, history and counts holds in every run of every interleaving from a loaded registry |
| Broker.RetainedIsFold | src/topics.rs:25-69 | After any run a topic's retained message is its last retain-flagged publish, or its start-up value; nothing else counts |
| Broker.ReceiverAccounting | src/topics.rs:25-69 | In every reachable state a topic's receiver count is the number of sessions that hold it, and it is zero exactly when none does |
| Broker.NoChannelReplaced | src/topics.rs:13-50 | In every run a topic keeps its wire from its creation on, and every live receiver reads the current wire of its topic |
| Broker.OrderedDelivery | src/tcp_handling.rs:135-155 | In every run what a receiver yielded is an in-order, duplicate-free subsequence of the publishes since its subscription, and what it will yield if left alone is exactly the last min(n, 1024) of its backlog |
| Broker.SubscriptionPersists | src/tcp_handling.rs:271-283 | A subscription that is neither renewed nor dropped lives on, and its cut stays at the publishes before it |
| Broker.SubscribeCut | src/tcp_handling.rs:271-283 | A subscription at event k is greeted with exactly the latest retained publish before k; while no backlog exceeds 1024, what it yielded and will yield is exactly the publishes from k on |
| Resubscription.ResubscribeSkips | src/tcp_handling.rs:276-277 | In any reachable state a renewed subscription stands at the tail of the same channel: what it skips is exactly what the old receiver had still to yield, and that is nothing if and only if its backlog was empty |
| Resubscription.ResubscribeCut | src/tcp_handling.rs:276-277 | The counterpart of the cut over whole runs: while backlogs stay within 1024, the renewed subscription and the one before it together yield every publish since the first one was made if and only if the backlog at the renewal was empty |
| Order.LessIffParts | src/tcp_handling.rs:37 | The key order outright: a comes before b if and only if there is a position up to which they agree and at which a ends or has the smaller character |
| Order.LessTotal | src/tcp_handling.rs:37 | The key order of the receiver map is a strict total order |
| Order.LessTransitive | src/tcp_handling.rs:37 | The key order is transitive |
| Order.InOrder | src/tcp_handling.rs:135 | Iterating over the receivers visits exactly the keys, in ascending order |
| Scheduling.Poll | src/tcp_handling.rs:62-69 | Ready exactly when some backlog is non-empty, and then with the least such topic name |
| Scheduling.ServingShrinks | src/tcp_handling.rs:136 | A receive on a ready topic never blocks and strictly shrinks its backlog, lag reports included |
| Scheduling.TotalShrinks | src/tcp_handling.rs:135-155 | Serving a ready topic strictly decreases the total backlog and increases none |
| Scheduling.ServeInKeyOrder | src/tcp_handling.rs:59-70 | Without new publishes, serving the least ready topic until none is ready yields exactly each topic drained completely, one after the other in key order |
| Subscriptions.GrantPerFilter | src/tcp_handling.rs:264-298 | A SUBACK has one code per filter, in order: quality of service zero exactly for a concrete filter, wildcard subscriptions not supported exactly for a wildcard, shared subscriptions not supported exactly for a shared one |
| Subscriptions.SubscribeOneOk | src/tcp_handling.rs:276-277 | A subscription changes no topic's retained message, and every receiver still has its channel |
| Sharing.PlayIsRun | src/topics.rs:10-69 | The registry and the receivers of all sessions after any events are those of the broker's run, history aside |
| Sharing.ActFrame | src/main.rs:83 | What other sessions and the bus do neither touches a session's receivers nor depends on them |
| Sharing.ChronicleIs | src/topics.rs:10-69 | A chronicle, as the session object carries it, is exactly the state and the story that the events determine |
| Turns.TurnTells | src/tcp_handling.rs:112-173 | What a turn adds to the session's story is what its event and its input say: publishes, greetings, deliveries, subscriptions asked for, and what others did meanwhile |
| Turns.AnswersAre | src/tcp_handling.rs:112-173 | The run of the broker decides which inputs are answers: what the event means in the state where its span begins, and what the span adds to the session's story |
| Turns.OthersInterleave | src/main.rs:83 | Nothing that other sessions and the bus can do is left out of a schedule: all of it happens between two turns, and before each filter of a SUBSCRIBE or UNSUBSCRIBE |
| ClientSession.Peers.Act | src/topics.rs:25-50 | Every other session and the bus act on the shared registry as the broker's events say |
| Acknowledgements.WillIsLatest | src/tcp_handling.rs:362-364 | In every execution the stored will is that of the latest CONNECT that carried one; it is never cleared |
| Acknowledgements.WillLaw | src/tcp_handling.rs:395-421 | The wills published are, in order, exactly one per idle timeout or DISCONNECT with reason 0x04 that finds a will stored, each the latest one; nothing else publishes a will |
| Acknowledgements.WillTwice | src/tcp_handling.rs:157-161 | At most one will per session is false: two idle timeouts publish it twice |
| Acknowledgements.WillOnceIff | src/tcp_handling.rs:157-161 | The exact condition, for every execution: at most one will is published if and only if no two triggers find a will stored |
| Acknowledgements.DisconnectIsLast | src/tcp_handling.rs:113-134 | A DISCONNECT or the end of the stream is always the last thing a session handles |
| Acknowledgements.AckConservation | src/tcp_handling.rs:189-236 | Over every execution the registry applies and the Redis queue receives exactly the publishes handled, wills included, in order; the PUBACKs, as pairs of id and reason, are exactly (its own id, Success) for each handled publish of QoS 1 with an id, in order, and no others |
| Acknowledgements.AcksFollowRegistry | src/tcp_handling.rs:200-228 | In every execution, cut short after any number of stream operations or not, every PUBACK says Success with the id of a QoS 1 publish and comes right after the registry application and the forward of that publish |
| Replies.EveryRequestAnswered | src/tcp_handling.rs:181-457 | Over every execution each CONNECT, PINGREQ, SUBSCRIBE and UNSUBSCRIBE is answered exactly once, in order, with its own id and its own codes, and nothing else is answered |
| Replies.GreetingsBeforeAck | src/tcp_handling.rs:264-302 | Over every execution each SUBACK stands after all greetings of its own SUBSCRIBE, in order, and before all later deliveries without retries |
| Replies.ShutdownLaw | src/tcp_handling.rs:157-161 | Over every execution the stream is shut down exactly once per idle timeout whose will does not panic, each time after that will, and never by anything else; wills and shutdowns come in exactly this order |
| Replies.EndsExactly | src/tcp_handling.rs:113-134 | After any execution: it has panicked if and only if its last input published a QoS 1 packet or will without an id; it reports an unexpected disconnect if and only if that input is the end of the stream; it reports a client error if and only if it is an unknown packet, a read error or any other DISCONNECT |
| Outcomes.EventsAnswered | src/tcp_handling.rs:320-350 | For every schedule that the loop handles, by the packets and timers it meets: a CONNECT is answered by a CONNACK, a ping by a ping response, a SUBSCRIBE by one SUBACK with its id and the code of each filter's kind, an UNSUBSCRIBE by one UNSUBACK with its id and, per filter, success exactly for the first mention of a topic held at that moment, anything else by nothing; the answers come in this order |
| Outcomes.AnswersMatch | src/tcp_handling.rs:103-176 | Whatever schedule the loop handles, its inputs match its events, as the following laws require |
| Outcomes.EventsPublished | src/tcp_handling.rs:189-421 | The same for publishes: the registry and Redis get, in order, exactly the PUBLISH packets of the client, and the will of the latest CONNECT packet with one at every idle timeout and every DISCONNECT with reason 0x04; exactly those of QoS 1 with an id are acknowledged |
| Outcomes.EventsTimed | src/tcp_handling.rs:135-173 | The same for retransmission: a turn is a tick exactly when the one-second timer fired and the acknowledgement of an id exactly when a PUBACK packet with that id was read, and only the channel branch delivers |
| Outcomes.EventsEnd | src/tcp_handling.rs:113-134 | The same for the end: which packet, read or timer ends the session, and how |
| Retransmission.EntryFollowsFate | src/tcp_handling.rs:143-173 | Under every interleaving, entry s is in the list exactly while its own fate is to be alive, with its interval less its ticks as counter (mod 2^32), and has been written as often as that fate says |
| Retransmission.WritesCarryPacket | src/tcp_handling.rs:143-172 | In every execution each write for an entry, first or repeated, carries the packet that was delivered when the entry was made |
| Retransmission.UnackedCount | src/tcp_handling.rs:162-173 | An entry never acknowledged: without an expiry interval it is written once and dropped on the first tick; with interval n >= 1 it is written 1 + t times after t < n ticks, n times in all, and dropped on exactly the n-th tick; with interval zero the same holds for n = 2^32 |
| Retransmission.IntervalIsExactUnlessZero | src/tcp_handling.rs:146 | An expired entry was written exactly as often as its interval says if and only if the interval is not zero |
| Retransmission.LoopHeadCounters | src/tcp_handling.rs:143-173 | Every counter is at least one at every loop head of an execution if and only if no QoS 1 message with interval zero was delivered |
| Retransmission.AckedCount | src/tcp_handling.rs:238-243 | An entry acknowledged after t ticks while alive is written exactly 1 + t times and never again |
| Retransmission.TickAgesList | src/tcp_handling.rs:162-173 | A tick lowers the longest life in the list by one, and its resends are exactly what the owed resends decrease by |
| Retransmission.ListEmptiesExactly | src/tcp_handling.rs:162-173 | Without arrivals the list is empty after n ticks if and only if n is at least the longest life, and by then exactly the owed resends were made |
| Deadline.IdleDeadline | src/tcp_handling.rs:157-173 | With a silent peer and timeout <= 65533 the idle branch fires for the first time exactly M + timeout + 2 seconds after the last activity, M being the longest life in the list, which is empty by then |
| Deadline.IdleWaitsForEntries | src/tcp_handling.rs:157 | The idle branch waits for all entries, and fires at the exact deadline, for every list if and only if timeout <= 65533 |
| ClientSession.Client.constructor | src/tcp_handling.rs:79-99 | A new session has no receivers, no will and no outgoing entries, and has joined the run of the broker |
| ClientSession.Client.Meanwhile | src/main.rs:83 | While the session waits, the others act: the run goes on by their events only and the session's receivers stay |
| ClientSession.Client.WriteToStream | src/tcp_handling.rs:308-318 | Writes the packet or reports the failure, and nothing is written on failure |
| ClientSession.Client.Apply | src/tcp_handling.rs:201-207 | The registry applies a publish of the session, never with an error, and the run goes on by exactly that event |
| ClientSession.Client.HandlePublish | src/tcp_handling.rs:189-236 | Registry, Redis queue, acknowledgement in this order; a PUBACK is written exactly for QoS 1 with an id while the stream works, with that id and Success, because the registry never fails; it fails exactly for QoS 1 without an id, after the publish was applied and forwarded, or with a failing write; the run goes on by exactly this publish |
| ClientSession.Client.HandleClientPublish | src/tcp_handling.rs:338 | A PUBLISH packet is that reaction, and one publish of this session in the run |
| ClientSession.Client.PublishWill | src/tcp_handling.rs:412-421 | Handles the stored will as a publish, in the run and in its effects, does nothing without one, and keeps the will |
| ClientSession.Client.RetainOutgoing | src/tcp_handling.rs:239-240 | Keeps exactly the entries that satisfy the condition, in order |
| ClientSession.Client.TickEntry | src/tcp_handling.rs:164-170 | Counts one entry down in place and writes it unless it reached zero |
| ClientSession.Client.ResendAll | src/tcp_handling.rs:163-171 | Counts all entries down in place and writes the live ones in list order; on failure exactly those before the failing write were written |
| ClientSession.Client.HandleTick | src/tcp_handling.rs:162-173 | The tick branch is the state machine's step: resends, then removal of the expired |
| ClientSession.Client.HandleConnect | src/tcp_handling.rs:352-390 | Stores a will if the packet has one, keeps the old one otherwise, and answers |
| ClientSession.Client.HandleDisconnect | src/tcp_handling.rs:395-407 | Always ends the session; with reason 0x04 the will is published first |
| ClientSession.Client.WillAndShutdown | src/tcp_handling.rs:159-160 | The shutdown comes after the whole will, and not at all if handling the will panicked or a write failed |
| ClientSession.Client.HandleIdleTimeout | src/tcp_handling.rs:157-161 | Publishes the will, shuts the stream down, and goes on with the loop |
| ClientSession.Client.Subscribe | src/tcp_handling.rs:276-277 | The registry and the receiver map take a subscription, the replaced receiver is dropped, and the retained message stays |
| ClientSession.Client.SubscribeFilter | src/tcp_handling.rs:271-283 | One critical section: new receiver, the replaced one dropped, greeting with the retained message of that very moment |
| ClientSession.Client.TakeFilter | src/tcp_handling.rs:266-297 | A filter of any kind: only a concrete one is subscribed and greeted |
| ClientSession.Client.SubscribeFilters | src/tcp_handling.rs:264-298 | With any events of other tasks before every filter: one code per filter in order, each greeting the retained message of its own moment in the run, the receivers exactly the old keys plus the concrete filters, and after a failing write exactly the part before it |
| ClientSession.Client.AnswerSubscribe | src/tcp_handling.rs:299-302 | The SUBACK comes after all greetings and only if they were written; together they are the state machine's reaction, up to a failing write |
| ClientSession.Client.HandleSubscribe | src/tcp_handling.rs:247-303 | The SUBSCRIBE, with other tasks in between, is the state machine's step: greetings, then a SUBACK with one code per filter in order, up to a failing write |
| ClientSession.Client.UnsubscribeFilters | src/tcp_handling.rs:438-454 | With any events of other tasks in between: one code per filter in order; code i is Success iff filter i is concrete, was held at the start and does not occur earlier in the list; exactly the concrete filters are removed and all other receivers stay as they were |
| ClientSession.Client.HandleUnsubscribe | src/tcp_handling.rs:425-457 | The UNSUBSCRIBE is the state machine's step with those codes and removals, whether or not the write succeeds |
| ClientSession.Client.NextReady | src/tcp_handling.rs:135 | The receiver future over the session's map: none exactly when no backlog is non-empty, otherwise the least ready topic |
| ClientSession.Client.Receive | src/tcp_handling.rs:136 | A receive from the least ready topic moves that receiver only and yields its next message or a lag report |
| ClientSession.Client.TakeReady | src/tcp_handling.rs:135-139 | The least ready topic is received from once and no other receiver moves; with none ready nothing moves |
| ClientSession.Client.HandleChannel | src/tcp_handling.rs:135-156 | The least ready topic is served once: its lookup never fails, a message is delivered, a lag report is skipped |
| ClientSession.Client.HandleReceived | src/tcp_handling.rs:138-155 | A message becomes a delivery; anything else is skipped without effect and the loop goes on |
| ClientSession.Client.Deliver | src/tcp_handling.rs:140-153 | A delivered message is written once, and a QoS 1 message joins the end of the list, whether or not the write succeeds, with its expiry interval as counter, or 1 without one |
| ClientSession.Client.HandlePublishAck | src/tcp_handling.rs:238-243 | A PUBACK removes every entry that shares its packet id and writes nothing |
| ClientSession.Client.HandlePing | src/tcp_handling.rs:181-184 | A PINGREQ is answered and changes nothing else |
| ClientSession.Client.HandlePacket | src/tcp_handling.rs:335-347 | Each packet type becomes its input of the state machine at the state in which it is handled, and adds to the run and to the session's story what that type may; unknown packets end the session |
| ClientSession.Client.Select | src/tcp_handling.rs:112-173 | Each branch of the loop is the state machine's step for its input at the actual registry and receivers, and adds to the run exactly what that branch may: a publish, subscriptions, removals, one receive, the will, or nothing |
| ClientSession.Client.Turn | src/tcp_handling.rs:108-175 | One turn extends the execution by one input, and the run by a span that says what this input says: its publish, its greetings, its delivery, its subscriptions; or it ends the session by an ending or a failed stream operation |
| ClientSession.Client.HandleRawTcpStream | src/tcp_handling.rs:103-176 | For every schedule of events, those of all other sessions and of the bus included, the loop handles its own events in order as an execution of the state machine, with that execution's effects up to the first failing stream operation, which only the last input can meet, and stops early only if the session is over. All this happens in one run of the broker, made of the schedule's foreign events and the session's own: every input is what its event means where its own span of that run begins, and what it publishes, is greeted with and delivers is exactly what that span says; all but the last are complete, and so is the last unless the session is over |
| SessionRuns.GotIsHeard | src/tcp_handling.rs:135-155 | What a session heard on a topic since it subscribed is exactly what its subscription got in the run of the broker |
| SessionRuns.GreetingIsGreeted | src/tcp_handling.rs:279-282 | A subscription's greeting in the run is what the session was greeted with |
| SessionRuns.GreetsTheLatest | src/tcp_handling.rs:271-283 | The greeting half of the cut, for every single SUBSCRIBE the loop handles: it is greeted, subscription by subscription, with exactly the latest retained publish before that subscription in the run |
| SessionRuns.DeliversInOrder | src/tcp_handling.rs:135-155 | The deliveries that the loop handles on a topic since a subscription are what that subscription got: an in-order, duplicate-free part of the topic's publishes since then |
| SessionRuns.DeliversTheLog | src/tcp_handling.rs:271-283 | The cut, for the deliveries that the loop handles: while no backlog exceeds 1024, those since the subscription, with what still waits, are exactly the publishes from it on |
| News.StreamShowsNews | src/tcp_handling.rs:140-153 | What is on the stream, resends aside, is exactly the greetings and deliveries of the inputs, in order: all of those before the last input, and those of the last as far as its writes succeed |
| SessionRuns.ReceivesInKeyOrder | src/tcp_handling.rs:59-70 | While the loop only receives, receive by receive it yields what draining its topics one after the other in key order yields |
| RedisSync.KeyInjective | src/redis_client.rs:91 | Different topics have different keys |
| RedisSync.RedisClient.constructor | src/main.rs:91-96 | The Redis task shares the broker's registry and has its own sender id |
| RedisSync.RedisClient.Publish | src/redis_client.rs:73-95 | The bus gets one message with the client's own sender id and the packet's topic, payload, QoS and retain flag exactly if PUBLISH works, and the store gets the same under "retain:" and the topic exactly if the packet is retained and SET works; so the store invariant is kept whichever command fails |
| RedisSync.SavesKeepStoreOk | src/redis_client.rs:88-94 | Whatever the brokers save and in whatever order, every stored message lies under the key of its own topic |
| RedisSync.SavesAreSound | src/redis_client.rs:157-163 | If others save between the GETs of a load, each GET still sees a store of that kind |
| RedisSync.SoundDoesNotClash | src/redis_client.rs:157-166 | From the store invariant: the replies to GETs of distinct keys, each at its own moment, never carry the same topic |
| RedisSync.RepliesAreStores | src/redis_client.rs:161-184 | A topic is loaded if and only if the GET of its key was answered, and it retains the payload that was stored under that key at that moment |
| RedisSync.RedisClient.HandleMessage | src/redis_client.rs:97-112 | A broker's own message changes nothing; any other, retained or not, is published to the registry field by field as `Topics.PublishedTakes` says, and the retained messages change by it alone; the task panics, with nothing done, exactly on a text that is no message and on a foreign message that the packet builder refuses |
| RedisSync.RedisClient.LoadMessage | src/redis_client.rs:168-182 | Adds the topic with the stored payload and no receivers; panics exactly if the topic is known |
| RedisSync.RedisClient.LoadNext | src/redis_client.rs:163-183 | One GET: skipped if it is not answered, a panic if the packet builder refuses it or its topic is there already, and otherwise loaded |
| RedisSync.RedisClient.GetAllRetainedMessages | src/redis_client.rs:153-185 | One GET per listed key, each of the store at its own moment, readable or not: panics exactly if the keys cannot be listed, the packet builder refuses a message or two readable messages share a topic; for stores that brokers produce the last never happens, and the registry has exactly the topics whose GET was answered, each with the payload stored then and no receivers |
| RedisSync.QuietLoad | src/redis_client.rs:153-185 | If nobody saves meanwhile and all is readable, the registry is the store: the same topics, each with its stored payload |
| RedisSync.ForeignIsTaken | src/redis_client.rs:97-112 | A message of another broker, retained or not, is published to the registry exactly as a packet with its topic, payload and retain flag; a broker's own message changes nothing |
| RedisSync.RoundTrip | src/redis_client.rs:73-112 | What one client puts on the bus for a packet is, at a client with another sender id, a publish with that packet's topic, payload and retain flag; at its own sender it changes nothing |
| ClusterOnce.RunKeepsInv | src/redis_client.rs:57-112 | In every run every message travels unchanged, is queued and published at most once, and waits nowhere after it was applied |
| ClusterOnce.AppliedOnce | src/redis_client.rs:73-112 | In every run each client publish is applied exactly once at its origin, at most once at every other broker, and there only after it was published on the bus; no echo is ever applied |
| ClusterOnce.BusCarriesPublishesOnce | src/redis_client.rs:73-112 | In every run, however often messages are delivered, there are at most as many PUBLISHes on the bus as client publishes |
| ClusterOnce.NoAmplification | src/redis_client.rs:73-112 | p publishes over b brokers cause at most p * b registry applications in any run |
| ClusterFlow.PublishesFlow | src/tcp_handling.rs:201-214 | In every run each message published at a broker that is still up, retained or not, is in a session's hand, in the queue, or was published on the bus; none is skipped |
| ClusterFlow.ReceiveApplies | src/redis_client.rs:97-112 | Taking a message from the inbox applies it exactly if it is another broker's, retained or not |
| ClusterFlow.BusIsApplied | src/redis_client.rs:57-112 | In every run what a live broker has applied of other brokers, followed by what of theirs waits in its inbox, is exactly what of theirs reached it, in order: nothing is skipped, repeated or overtaken |
| ClusterOrder.AppliedInConnectionOrder | src/redis_client.rs:57-112 | In every run, at every broker, the publishes of one client connection are applied in the order in which that connection made them, retained or not, whatever is lost and whoever else publishes |
| ClusterRetained.OneBrokerTakesTurns | src/tcp_handling.rs:201-214 | At one broker it is enough that no retained publish is applied while an earlier one waits for a queue slot |
| ClusterRetained.OneWriterTakesTurns | src/tcp_handling.rs:201-214 | The retained publishes of a single connection always take turns, since it waits for its queue slot |
| ClusterRetained.RunKeepsOrdered | src/redis_client.rs:57-185 | For a topic whose retained publishes take turns, at one broker or at many (each is applied when no other waits for a queue slot or in the inbox of its broker and none is on its way from another broker), queues, bus, inboxes, store and registries stay ordered by version in every run |
| ClusterRetained.NeverBackwards | src/redis_client.rs:73-112 | Over any stretch of any run with turns taken, no live broker goes back to an older retained version |
| ClusterRetained.NeverAhead | src/tcp_handling.rs:201-214 | No broker is ever ahead of the one that wrote the latest version, while that one is up |
| ClusterRetained.BusBringsNewer | src/main.rs:98-102 | The bus never brings a broker a version of another broker that it already loaded, received or superseded |
| ClusterRetained.WhoHoldsLatest | src/redis_client.rs:84-94 | The latest version is held by the broker that wrote it always, by the store if and only if its SET succeeded, and by any other live broker with no versions of others left in its inbox if and only if it was delivered to it or loaded by it |
| ClusterRetained.ClusterConverges | src/redis_client.rs:57-112 | Once the latest version was saved, heard by every live broker and taken from the inboxes, the store and every live broker hold its topic and payload |
| ClusterTurns.SettledAgrees | src/redis_client.rs:57-112 | With turns taken and no failing SET, once no version is on its way any more the store, the broker that wrote the latest version and every live broker that heard and took it hold it |
| ClusterTurns.OutOfTurnDiverges | src/tcp_handling.rs:201-214 | After any run with turns taken, one retained publish out of turn, for whichever of the three reasons, and some way to drain ends in disagreement for good, though no SET fails |
| ClusterTurns.AgreesIffInTurn | src/tcp_handling.rs:201-214 | The exact condition, for any number of writing connections and brokers and every run in which no SET fails: from every point of the run, however it drains, all agree once it has settled, if and only if the retained publishes to the topic took turns |
| ClusterTurns.TwoWritersOverlap | src/tcp_handling.rs:201-214 | Two connections of one broker need not take turns: such a run exists |
| ClusterTurns.TwoBrokersDiverge | src/redis_client.rs:73-112 | From every reachable state with two idle brokers, a publish to the same topic at each can leave each with the other's message for good, though nothing is lost and no SET fails |
| Locks.RunKeepsInv | src/tcp_handling.rs:201-215 | In every run the mutex has exactly the owner that thinks it has it, and no queue exceeds its capacity |
| Locks.NoCircularWait | src/tcp_handling.rs:201-215 | In every reachable state a chain of waiting parties (sessions, Redis task, bus reader, peers, Redis) has at most four members, all different |
| Locks.FourWait | src/tcp_handling.rs:201-214 | The bound is tight and the full queue is reachable: for any two sessions there is a run in which, with 200 messages queued, a publisher waits for the task, the task for the mutex, and its holder, a subscriber being greeted, for its peer |
| Locks.SlotWaitersHoldNothing | src/tcp_handling.rs:201-215 | A session that waits for a queue slot waits exactly while 200 messages are queued and does not hold the mutex, so the task that empties the queue never waits for it |
| Locks.HolderWaitsIffGreeting | src/tcp_handling.rs:272-282 | The holder of the mutex waits if and only if it is a subscriber being greeted with a retained message, and then for its own peer and nobody else |
| Locks.FreeableIffNotGreeting | src/tcp_handling.rs:272-282 | In every reachable state the broker can free the mutex by a step of its own if and only if the holder is not greeting |
| Locks.GreeterBlocksAll | src/tcp_handling.rs:272-282 | From any reachable state with a greeting holder, until its peer reads or the write fails, it keeps the mutex whatever else happens: nobody takes or releases it |
| Locks.GreeterReachable | src/tcp_handling.rs:272-282 | Such a state is reachable for any session |
| Locks.WaitEnds | src/redis_client.rs:57-112 | Every waiting party waits, in the end, for one that can take a step of its own: a holder that can release the mutex, the task, or else a peer that has to read or Redis that has to answer |
| Refinement.PublishIsKeep | src/topics.rs:45-48 | If a registry and the cluster agree on the retained payloads, they still do after the same publish |
| Refinement.PublishIsSteps | src/redis_client.rs:73-95 | If the first message in the queue has a packet's topic, payload and retain flag and comes from the client's broker, publishing that packet to Redis is one or two steps of the cluster: the stores go on agreeing whether or not the SET works, exactly the brokers it reaches have it last in their inbox, nobody else changes, and the publisher is ready for the next |
| Refinement.SetIsSave | src/redis_client.rs:89-94 | The SET of a packet is the cluster's saving step for the message with the same topic, payload and retain flag, whether or not it works: the stores go on agreeing, topic by topic |
| Refinement.HandleIsReceive | src/redis_client.rs:97-112 | Handling a message from the bus is the cluster's receiving step, the drop of an echo included |
| Refinement.LoadIsStep | src/redis_client.rs:161-184 | Loading one key is the cluster's loading step, whether or not the reply can be read |
| Refinement.LoadIsSteps | src/redis_client.rs:153-185 | The whole load is a sequence of the cluster's loading steps, whatever is saved between the GETs and whichever replies can be read: from distinct keys alone, the loaded registry retains what the cluster says the joining broker retains |

## Left out

- MQTT byte encoding, decoding, the 1024-byte read buffer and topic filter parsing: the model starts from decoded packets; a packet that does not decode is an `OtherPacket`.
- The conversion of a will to a publish packet is in a library that is not part of this model: wills are stored as the packet they convert to, with or without a packet id.
- The insides of tokio channels, timers, wakers and mutexes: their contracts are modelled (FIFO queues, broadcast with lag, mutual exclusion, an ideal clock).
- TLS, sockets, certificates, listeners and the acceptance of connections: kept are the load before listening, the shared registry and the queue capacity.
- Redis connection retries and JSON text: they appear as lost messages, failed commands, unreadable replies and texts that are no message.
- A panic in the start-up load, in the Redis task or in a session is an outcome in the model; what the runtime does after it is not modelled, and the runs of the cluster have none in the Redis task.
- src/bigquery.rs, src/config.rs, src/error.rs, and the examples, fuzz and infra directories: logging, deserialisation, wrappers and deployment.
- Random ids: brokers have distinct sender ids.
- The fields of CONNACK: one constant answer.
- The overflow panics of a debug build: the wrap-around of a release build is modelled.
- Time that a write takes: `Locks` says who waits for whom while it lasts; in the session's execution a write succeeds or fails.
- ClientSession.Client.HandleIdleTimeout: shutting the stream down does not by itself make later writes fail; the budget of the stream stays arbitrary.
- Deadline.IdleDeadline: assumes an ideal clock, instant writes, a silent peer and no channel messages, and speaks of the first idle timeout.
