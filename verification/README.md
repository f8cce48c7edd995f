# A verified model of cellaserv

cellaserv is a message broker. Clients connect to it over TCP, register
services, send requests to services and get replies, subscribe to events and
publish them, and can ask for a carbon copy of the traffic of a service ("spy"
on it). This project models the broker's shared state, the client library that
talks to it and the framing between them, and proves what every run of them
keeps.

## How the model is built

- `BrokerState` holds the broker's shared state as one value, its handlers as
  functions on that value, and a datatype of steps. A run is a sequence of
  steps, each one handler taken as atomic. The whole-run theorems are about
  these functions.
- `BrokerObject.Broker` is the broker in the source's own form: a class whose
  fields the handlers update in place, with client and service objects on the
  heap and the spies of a service as a window on a backing array that other
  slices may share. Its methods are proved to move the state they represent by
  the function of the same handler in `BrokerState`. `Api` computes the listings
  by loops over the object's maps.
- `Requests` is the table of pending requests and its timers. `Registry`,
  `FlatRegistry`, `Subscriptions`, `Spies`, `Carbon`, `Listings` and `Monitor`
  prove the properties of each structure, `Runs` and `Memory` put the invariant
  of all of them together. `Outbox` says what every step writes to every
  connection, and which it closes. `Witnesses` has runs in which what a theorem excludes
  does happen.
- `LockSections` takes the request table at a finer grain, with each critical
  section one step.
- `ClientLib` is the client library: request ids, spies waiting for replies and
  the subscriber list, as a class with its specification. `Traffic` and
  `Composition` join the broker to its clients over first-in, first-out
  connections; `Roles` has the rule by which clients keep every reply single.
- `Framing` and `Paths` are the wire framing and the service paths; `Glob` is
  the matcher of subscription patterns and `PatternLanguage` what patterns mean;
  `Seqs` has the slice idioms, `Options` an optional value.

Client, service and array references serve as identities in the state; events
and messages are datatypes. The broker's `log.cellaserv.*` publishes are kept in
a history (`net.log`), and what it has written to each connection in another
(`net.conn`).

## What the source leaves to its callers

These conditions are stated where they are needed; all but the second are shown
to be needed.

- Request ids are trusted to be distinct. A request that reuses the id of a
  pending one overwrites its entry and leaves its timer armed
  (`Requests.DrainingAnswersAll`, `Requests.ReuseMisroutes`).
- A client's id is its remote address; a new connection's address is not that of
  a client still in the map.
- Registering the name `cellaserv` closes a channel; the second time panics. The
  model has that outcome (`crashed`), after which no step is taken
  (`Runs.PanicsExactly`, `Listings.LogReconstructsListings`).
- Renames and registrations through the built-in service act on the sender of a
  tracked request, which may have disconnected. What then breaks is stated
  exactly, for one step and for every moment of a run
  (`Registry.RegisterKeepsIffConnected`, `Runs.MirrorsExactly`,
  `Listings.RenameSeenExactly`, `Listings.LogAlwaysReconstructs`), and shown in runs (`Witnesses.RegisteredAfterDeparture`,
  `Witnesses.RenamedAfterDeparture`). No other result over runs
  excludes such steps.
- A request's snapshot of the spies shares its array with the service's slice.
  When a spy leaves, another is moved to its place; when one comes after that, it
  is appended in the place given up. Either can change what the snapshot reads,
  and with it who is copied on the reply. When a step does so is stated exactly
  (`Spies.RemovalSparesSnapshotExactly`, `Spies.AppendSparesSnapshotExactly`), and
  so is when a run does (`Carbon.RunSparesExactly`); both ways are shown in runs
  (`Witnesses.LateSpyGetsReply`, `Witnesses.LateAppendGetsReply`).
- A client that spies on a service it asks gets the reply twice
  (`Composition.OnceIffNeverDoubles`, `Witnesses.RequesterHearsTwice`). Clients
  that keep the two apart do not (`Roles.AbstainersHearOnce`).
- With lock sections as steps, a reply and a timeout can both answer a request,
  and a timer that fires between being armed and its entry being stored leaves
  the request pending with no timer to end it (`LockSections.TwoAnswersPossible`,
  `LockSections.EarlyTimerStrands`).

Where the documentation and the code differ, the model follows the code. The
README (`README.md:90-92`) says that subscriptions use the pattern language of
Go's `filepath.Match`; the broker takes a pattern without a star literally, so
`?`, classes and escapes only work next to a star (`Glob.IndexHonoursPattern`).
The README (`README.md:85-86`) gives a default timeout of 5 seconds and
`broker/broker.go:226-228` sets 3600; durations do not matter to the model, in
which a timer is armed or has fired. The README's section on spying says that
spies get a copy of the responses; the error replies that the broker itself
sends, for a timeout or an unknown service, are not copied (`broker/reply.go:33`).

## Model

| member | source | states |
|---|---|---|
| Requests.TrackKeeps | broker/request.go:60-70 | accepting a request, under any id, keeps conservation (each accepted request is once pending, answered or overwritten) and gives its entry an armed timer of its own |
| Requests.SettleKeeps | broker/reply.go:17-28 | a reply of any id keeps conservation, and stops just the timer of the entry it ends |
| Requests.ExpireKeeps | broker/request.go:47-59 | a timer that fires, for an entry of its own or one that has taken its id, keeps conservation and the pairing of timers with entries |
| Requests.HistoryKeepsInv | broker/request.go:46-70 | over every history of requests, replies and timeouts the invariant holds, and no entry was overwritten if and only if no id was reused while pending |
| Requests.EmptyTableAnswers | broker/request.go:46-70 | with no request pending, every accepted one has had exactly one answer, sent to its issuer, if and only if none was overwritten |
| Requests.DrainingAnswersAll | broker/request.go:47-70 | from any reachable table, firing the armed timers in any order empties it, and then all requests were answered exactly once and to their issuers if and only if no id was reused while pending |
| Requests.ReuseMisroutes | broker/request.go:60-70 | reusing a pending id leaves the first timer armed; when it fires it ends the second request and answers the first issuer |
| Carbon.TimeoutAnswersIssuer | broker/request.go:47-59 | when a timer fires and no id was reused, the issuer alone is written the timeout and the request is no longer pending |
| Carbon.RunIsHistory | broker/broker.go:113-168 | the request table of any run of the whole broker is that of a history of the table alone |
| Carbon.DrainingIsWritten | broker/request.go:47-59 | meanwhile, when no id was reused, the connection of each client is written one reply for each of its pending requests, if it is open, and no other reply |
| Carbon.BrokerDrains | broker/request.go:47-70 | after every run that does not panic, the armed timers can fire as steps of the broker in any order; then nothing is pending, and each request was answered once to its issuer if and only if no id was reused while pending |
| LockSections.StepKeeps | broker/request.go:47-70 | each critical section, timer stop and send, in any interleaving, keeps the invariant of routing, counting and deletion |
| LockSections.RoutingHolds | broker/reply.go:17-41 | whatever the interleaving, every answer for an id goes to the one client that issued it, and GetRequestSender names nobody else |
| LockSections.DeletedStaysDeleted | broker/reply.go:24-26 | an id that has been deleted from the table is not pending at any later time |
| LockSections.AnswersAreLookUps | broker/reply.go:17-41 | the answers for an id number at most the successful look-ups before its first deletion, with equality if and only if all handlers of that id have finished |
| LockSections.TwoAnswersPossible | broker/request.go:47-59 | from any reachable state with a stored request and its timer armed, an interleaving of a reply and the timeout sends two answers |
| LockSections.QuietExceptMissed | broker/request.go:60-70 | when nothing is under way, a request is pending if and only if it was never answered, and then its timer fired before its entry was stored |
| LockSections.EarlyTimerStrands | broker/request.go:60-70 | there is a run in which that happens and the request stays pending with no timer |
| LockSections.AtomicTrack | broker/request.go:60-70 | a request handler that is not interleaved does what the atomic model does |
| LockSections.AtomicSettle | broker/reply.go:17-41 | a reply handler that is not interleaved does what the atomic model does: one answer to the same client if it finds the entry, and nothing if it does not |
| LockSections.AtomicExpire | broker/request.go:47-59 | a timeout that is not interleaved does what the atomic model does: one answer to the same client if it finds an entry under its id, and otherwise only the timer goes |
| Runs.ListsAreRegistered | broker/register.go:58-62 | after any run in which only connected clients register, a connected client lists a service if and only if it is registered and that client owns it, and lists none twice |
| Runs.DeparturesTakeTheirOwn | broker/client.go:102-111 | after any such run, a departure deletes, under every key, exactly a service of the client that leaves |
| Runs.RunKeepsMirror | broker/register.go:10-71 | every run in which only connected clients register keeps the mirror of registry and lists |
| Runs.MirrorsExactly | broker/register.go:10-71 | the mirror of registry and lists holds at every moment of a run if and only if only connected clients register in it |
| Registry.ReplaceDetaches | broker/register.go:28-62 | a registration, whoever it is for, takes the service it replaces off its owner's list, puts the new one on its client's, and changes no other list |
| Registry.RegisterKeepsIffConnected | broker/register.go:10-71 | a registration keeps the mirror of registry and lists if and only if the client registering is connected |
| Registry.DepartureTakesItsOwn | broker/client.go:102-111 | removing a client deletes, under every key, exactly a service of its own; one taken over by another client stays |
| Registry.DepartKeeps | broker/client.go:102-127 | a departure keeps the mirror for the clients that stay |
| FlatRegistry.RefusalIsFlat | broker/request.go:33-44 | NoSuchService is the answer exactly when no service of that name is registered, empty inner maps or not |
| FlatRegistry.RefusedExactly | broker/request.go:33-44 | a request is refused exactly when its key is not registered: its requester alone is written one error, if its connection is open, of the right kind and nothing is tracked; otherwise it is tracked for its sender |
| FlatRegistry.ListingIsFlat | broker/api.go:48-58 | the service listing depends only on the flat map from name and identification to service |
| FlatRegistry.StepIsFlat | broker/register.go:20-62 | two states that differ only in empty inner maps take a step to states that differ only in empty inner maps: same messages, same table, same lists |
| FlatRegistry.RunIsFlat | broker/client.go:110 | over whole runs, empty inner maps left by removals cannot be observed in messages or listings |
| Outbox.RequestWritten | broker/request.go:72-83 | an accepted request is written to its service once and to each spy once per time it spies, on connections still open, and to no one else |
| Outbox.RefusalWritten | broker/request.go:31-44 | any other request is answered by one error reply to its sender: InvalidIdentification if some service has that name, else NoSuchService |
| Outbox.ReplyWritten | broker/reply.go:17-41 | a reply to a pending request is written once per place in its snapshot and once to its sender, on connections still open; any other reply to no one |
| Outbox.TimeoutWritten | broker/request.go:47-59 | a timer that fires writes the timeout to the client it captured if its id is pending, and otherwise nothing |
| Outbox.PublishWritten | broker/publish.go:27-59 | a publish is written once to each connected client with an open connection that has the very name among its patterns or a pattern with a star that matches it, and to no one else |
| Outbox.ConnectWritten | broker/client.go:183-197 | a new client is told of as new-client, with its id and no name, to exactly the subscribers of that name; to itself nothing is written |
| Outbox.RenameWritten | broker/client.go:41-46 | a rename is told of as client-name, with the new name, to exactly its subscribers |
| Outbox.RegisterWritten | broker/register.go:28-71 | a registration is told of as lost-service for the service replaced, with its own owner, and then as new-service, unless the process panics |
| Outbox.SubscribeWritten | broker/subscribe.go:14-44 | a new subscription is told of as new-subscriber, to the subscribers that there are with it; a repeated one is not |
| Outbox.DepartWritten | broker/client.go:209-221 | a departure is told of as lost-service for each service in order, up to the one whose loss closes the connection; then, on connections still open, as lost-subscriber for each subscription and as lost-client with the last name |
| Outbox.DepartCloses | broker/client.go:115-122 | the connections closed after a departure are those closed before and those of the spies of the client's services |
| Outbox.StepCloses | broker/client.go:115-122 | no other step closes a connection |
| Outbox.RunWrites | broker/broker.go:113-168 | over any run from a state that satisfies the invariant, a connection has been written exactly the messages of its steps, in order |
| Runs.ListsAreIndexed | broker/subscribe.go:17-41 | in every reachable state a connected client lists a pattern if and only if it is in the index for that pattern's kind, and lists none twice |
| Subscriptions.SubscribeKeeps | broker/subscribe.go:14-44 | subscribing, with its check for duplicates, keeps each client at most once per key and the indexes in step with the clients' lists |
| Subscriptions.DropIsComplete | broker/client.go:133-151 | the removal loop erases the departing client from every key, keeps every other client's count, and leaves no empty key |
| Seqs.OverwriteMatchesExact | broker/client.go:135-149 | the loop, which does not stop at a match, removes one client and no other entry if and only if the client occurs exactly once in the list |
| Subscriptions.OneEventPerSubscription | broker/client.go:160-163 | a departure publishes exactly one lost-subscriber event per subscription of the client, and none for anyone else |
| Subscriptions.DepartKeeps | broker/client.go:129-165 | a departure keeps the indexes in step with the lists of the clients that stay |
| Subscriptions.RecipientsAre | broker/publish.go:27-53 | a publish goes to exactly the connected clients that have a pattern the indexes match |
| Subscriptions.DeliveryRefinesScan | broker/publish.go:27-59 | if a client's patterns have stars or are plain names, a publish writes it one copy when a scan of its own list with the glob matcher would, and none otherwise |
| Subscriptions.DeliveryRefinesScanExactly | broker/publish.go:38-53 | for a client with one pattern, indexed delivery agrees with the scan for every event if and only if the pattern has a star or is a plain name |
| Glob.LiteralMatchesItself | broker/publish.go:40 | a plain pattern matches itself and nothing else |
| Glob.IndexHonoursPattern | broker/subscribe.go:33-41 | the two indexes honour the pattern language for all events if and only if the pattern has a star or none of its special characters |
| PatternLanguage.MatchExactly | broker/publish.go:41 | for every pattern and every name, the matcher agrees with the meaning of the pattern: it can be spelled as terms (characters, escapes, ?, *, classes with ranges and negation) and the name cut into pieces one of which each term covers |
| PatternLanguage.StarsAreGaps | broker/publish.go:41 | a pattern of ordinary characters and stars matches a name if and only if the name is the pieces between the stars, in order, with gaps free of slashes |
| Spies.DepartureRemovesEverySpy | broker/client.go:167-181 | a departure removes every occurrence of the client from the spies of every service, replaced ones included, and no occurrence of anyone else |
| Spies.DropSpiesCount | broker/client.go:167-181 | one occurrence goes per entry of the departing client's list, however often it spied on a service |
| Spies.AddSpyKeeps | broker/service.go:45-55 | spying keeps the relation symmetric with repeats: a client is among a service's spies as often as the service is on its list |
| Spies.AppendSparesSnapshotExactly | broker/service.go:48-50 | a later spy, appended in place or in a new array, leaves what any slice reads as it was if and only if the slice is on another array, or no longer than the live slice, or already has that client in the place appended to |
| Spies.RemovalSparesSnapshotExactly | broker/client.go:171-178 | a removal leaves what any slice reads as it was if and only if the slice is on another array, or the client is no spy, or the slice is too short to reach its place, or the last spy is the client itself |
| Spies.RemovalsSpareExactly | broker/client.go:167-181 | the removals of one departure leave what a slice reads as it was if and only if each of them does, for a place once changed does not get its client back |
| Witnesses.LateAppendGetsReply | broker/service.go:48-50 | a run, with every array just as long as needed, in which the one spy leaves after a request and a client that begins to spy then, and was never written the request, is appended in its place and written the reply |
| Witnesses.LateSpyGetsReply | broker/client.go:171-178 | the same by the other way: with one place to spare, a client that began to spy after the request is moved to the place of the spy that leaves, and written the reply |
| Runs.SpiesAreListed | broker/service.go:45-55 | in every reachable state a client is among the spies of a service, replaced ones included, as often as the service is on its list, and not at all once it has left |
| Carbon.RunSparesExactly | broker/request.go:63-67 | over any run, a snapshot reads the same at every moment if and only if every spy that comes and every client that leaves meets its condition at the time |
| Carbon.ReplyFollowsRequest | broker/reply.go:31-41 | if those conditions are met between a request and its reply, the reply is copied to exactly the clients the request was copied to, in the same order, and then sent to the requester |
| Carbon.ReplyFollowsUnlessSpyLeaves | broker/reply.go:31-41 | in particular if no spy of the service leaves in between, however many join |
| Runs.StepKeeps | broker/broker.go:113-168 | every step, renames and registrations for clients that have left included, keeps the invariant: keys of the registry, subscriptions, spies, request table and reachable objects |
| Runs.RunKeeps | broker/broker.go:82-103 | from any state where it holds, the invariant holds after any run |
| Runs.ReachableInv | broker/broker.go:224-265 | the invariant holds in every state that a new broker can reach |
| Listings.RegisterSeen | broker/register.go:28-71 | the events of a registration account for its change of the listings, if and only if it is not a second one of the name cellaserv |
| Listings.DepartSeen | broker/client.go:209-221 | the events of a departure account for its change of the listings |
| Listings.RenameSeenExactly | broker/client.go:41-46 | a rename agrees with its event if and only if the client is still connected, or its address is in use by a client that already has that name |
| Listings.RunSeen | broker/api.go:7-58 | over any run with renames of connected clients only, applying the published events in order to the listings gives the listings at the end, if and only if the name cellaserv is not registered a second time |
| Listings.LogReconstructsListings | broker/api.go:7-58 | for any run with renames of connected clients only, folding the whole event log gives exactly the services, subscriptions and named clients that the listing functions return, if and only if the name cellaserv is registered at most once |
| Listings.LogAlwaysReconstructs | broker/api.go:7-58 | over any run, the event log gives what the listing functions return at every moment if and only if every rename agrees with its event and the name cellaserv is registered at most once |
| Runs.PanicsExactly | broker/register.go:65-67 | a run panics if and only if it registers the name cellaserv for the second time |
| Witnesses.RenamedAfterDeparture | broker/cellaserv/cellaserv.go:43-55 | a run in which the sender of a tracked request leaves and is then renamed, after which the event log does not give the listings |
| Witnesses.RegisteredAfterDeparture | broker/cellaserv/cellaserv.go:58-79 | a run in which a service is registered for such a sender, after which the mirror of registry and lists does not hold |
| Monitor.LogStarCovers | broker/publish.go:12-20 | one subscription to log.cellaserv.* matches every topic of the broker's own events |
| Monitor.MonitorFollowsListings | broker/publish.go:27-93 | a client so subscribed, from what is written to its connection alone, has the listings at the end of any run in which it stays connected, its connection stays open, nobody else publishes under the broker's topics and only connected clients are renamed, if and only if the name cellaserv is not registered a second time |
| BrokerObject.Broker.constructor | broker/broker.go:224-265 | a new broker is valid and in the empty state |
| BrokerObject.Broker.SendMessage | broker/client.go:58-63 | any message is appended to the connection unless the broker has closed it, and the state moves with it |
| BrokerObject.Broker.Collect | broker/publish.go:27-53 | the set filled by loops over both maps is exactly the recipients: the glob keys that match, and the exact key |
| BrokerObject.Broker.Publish | broker/publish.go:27-59 | each recipient with an open connection is written the message once, and no one else |
| BrokerObject.Broker.PublishEvent | broker/publish.go:63-93 | the event is logged and delivered under its topic |
| BrokerObject.Broker.NewClient | broker/client.go:183-197 | the new client is stored and told of |
| BrokerObject.Broker.SetClientName | broker/client.go:41-46 | the client object and the state take the name, and the event is published |
| BrokerObject.Broker.HandleRequest | broker/request.go:20-84 | error kind or tracking, timer, forwarding and copies to the spies are those of the specification, and nothing else changes |
| BrokerObject.Broker.HandleReply | broker/reply.go:8-42 | the entry and its timer go, the reply is written to the snapshot's clients and then to the sender, and nothing else changes |
| BrokerObject.Broker.HandleTimeout | broker/request.go:47-59 | the closure ends the entry under its id, whoever it is for, and answers the client it captured |
| BrokerObject.Broker.GetRequestSender | broker/request.go:86-96 | the tracked sender, or nothing |
| BrokerObject.Broker.HandleRegister | broker/register.go:10-71 | takeover, replacement, both lists, both events and the panic, stage by stage in source order, as one move of the whole state |
| BrokerObject.Broker.GetService | broker/service.go:59-68 | the service under the key, or nothing |
| BrokerObject.Broker.HandleSubscribe | broker/subscribe.go:14-44 | a repeated pattern changes nothing; a new one is listed, indexed by its kind and told of |
| BrokerObject.Broker.SpyService | broker/service.go:45-55 | the client is appended to the service's slice, in place when the array has room, and the service to the client's list |
| BrokerObject.Broker.WithdrawService | broker/client.go:104-125 | the loss is told of, the key deleted, and the connections of the service's spies closed |
| BrokerObject.Broker.RemoveServicesOnClient | broker/client.go:102-127 | all services of the client are withdrawn in order |
| BrokerObject.Broker.RemoveFromList | broker/client.go:135-149 | the inner removal loop, reading the list it overwrites: how many matches, and what list is left |
| BrokerObject.Broker.RemoveConnFromMap | broker/client.go:133-151 | over all keys in some order, what map is left and which subscriptions are reported removed |
| BrokerObject.Broker.RemoveSubscriptionsOfClient | broker/client.go:129-165 | both maps lose the client, then one event per removal is published to the subscribers that remain |
| BrokerObject.Broker.DropSpy | broker/client.go:171-178 | the first occurrence is swap-removed in the shared array |
| BrokerObject.Broker.RemoveSpiesOnClient | broker/client.go:167-181 | one such removal per entry of the client's list |
| BrokerObject.Broker.RemoveClient | broker/client.go:209-221 | every field a departure changes, in source order, what it leaves alone, and that the objects still agree with the state |
| BrokerObject.Broker.StepDepart | broker/client.go:209-221 | a departure as one move of the whole state, and the objects still agree with it |
| BrokerObject.Broker.GetClient | broker/client.go:49-55 | the client stored under the id, or nothing |
| BrokerObject.Broker.RenameClientFromRequest | broker/client.go:199-207 | the sender of the tracked request is renamed; without one nothing changes |
| BrokerObject.Broker.HandleMessage | broker/broker.go:113-168 | each message of a connected client takes the broker by the step for that message, and the objects still agree with the state |
| BrokerObject.Broker.ServeMessages | broker/broker.go:87-101 | in a run of the broker, the messages of a connected client, handled one after the other until the process panics, are further steps of that run, each the step for its message |
| BrokerObject.Broker.Handle | broker/broker.go:82-104 | a whole connection with no other in between, from any state that satisfies the invariant of reachable objects, is a legal run: arrival, a step for each message in order, departure |
| Memory.ClosedCanServe | broker/broker.go:113-168 | in every reachable state the handler of any message only meets objects the broker knows |
| Memory.ClosedCanDepart | broker/client.go:209-221 | likewise for a departure |
| Memory.ClosedCanFire | broker/request.go:47-59 | likewise for a timer that fires |
| Memory.ClosedCanSpy | broker/service.go:45-55 | likewise for a spy on a registered service |
| Api.GetClientsJSON | broker/api.go:37-46 | each connected client once, with its current name |
| Api.GetServicesJSON | broker/api.go:48-58 | each registered service once, with its owner's id |
| Api.GetEventsJSON | broker/api.go:7-35 | each key once, and under it the ids of its subscribers in their order |
| Api.ReachableListable | broker/subscribe.go:33-41 | every reachable state satisfies what the listing functions assume: no key in both maps, and entries stored under their own keys |
| Traffic.StepWrites | broker/reply.go:31-41 | how many replies of an id each step of the broker writes to each connection, and that connections only grow |
| Composition.InstallAndWriteSend | client/client.go:105-118 | installing a channel and writing the request change channels and queue as the library does to send a request |
| Composition.RecvHandlesReply | client/client.go:209-217 | receiving changes the channels as the library does to handle a reply, and other messages leave them alone |
| Composition.ActionKeeps | client/client.go:97-122 | every action of broker and clients, other than a doubled reply, keeps each request in exactly one place while its connection is open, and in at most one when it is closed: unsent, queued, pending, or answered |
| Composition.AtMostOneReply | client/client.go:195-218 | over every run without doubled replies, at most one reply to a request is written to its requester, so its channel is offered at most one value |
| Composition.OnceIffNeverDoubles | broker/reply.go:31-41 | all requests of all clients are answered at most once if and only if no reply was passed on to a requester that was itself in the spies snapshot of its request |
| Witnesses.RequesterHearsTwice | broker/reply.go:31-41 | a run with a doubled reply, by a client that spies on a service it asks |
| Roles.AbstainersHearOnce | broker/reply.go:31-41 | if in a run no client has a request accepted by a service that it is among those to spy on, before or after, no reply is doubled and every request is answered at most once, although snapshots share arrays with later spies |
| Composition.RepliesFindChannels | client/client.go:105-121 | over every run, when a reply to a request of a client has been written to it, the client had installed the channel for that reply by then |
| Composition.ExactlyOneAtRest | client/client.go:105-121 | when all queues are read and no timer is armed, every request sent on a connection still open has been offered exactly one reply |
| ClientLib.FirstIdsAreDistinct | client/client.go:97-110 | from any starting nonce, the first 2^64 requests get distinct ids, and those are the keys in flight |
| ClientLib.PanicsExactlyAfterAll | client/client.go:105-107 | the panic on a duplicate id has happened after n requests if and only if n exceeds 2^64 |
| ClientLib.VacateLeaves | client/client.go:237-241 | swap-removing descending positions stays in bounds and leaves the multiset of the subscribers that stay |
| ClientLib.LeavingDescends | client/client.go:229-234 | the positions noted by prepending are strictly descending, and as many as the subscribers that leave |
| ClientLib.CalledAre | client/client.go:226-228 | the callbacks run are those of the subscribers at the positions whose pattern matches, each once, in order |
| ClientLib.StayingAre | client/client.go:226-241 | the subscribers that stay are those at the positions that do not match or whose callback does not ask to be removed |
| ClientLib.SpiesArePaired | client/client.go:130-144 | over every sequence of spy installations and messages, spy handlers get a request and reply of one id, each record is dispatched at most once, and the calls made are those to the handlers on record |
| ClientLib.RecordsAreSnapshots | client/client.go:138-142 | the handlers on record are those installed when the request was seen |
| ClientLib.InstalledAre | client/client.go:389-396 | the handlers installed for a service are those of the spy installations for it so far, each once, in order |
| ClientLib.ReplyCallsSpies | client/client.go:195-207 | the first reply to the last spied request of its id runs each handler that was installed when the request was seen, in order, on that request and that reply |
| ClientLib.NothingElseCalls | client/client.go:195-207 | no other event runs a handler |
| ClientLib.Library.constructor | client/client.go:414-433 | a new client has nothing in flight, no subscribers and no spies |
| ClientLib.Library.SendRequest | client/client.go:97-118 | the nonce advances by one modulo 2^64; on a fresh id the channel is installed and the request written, on a duplicate the client panics |
| ClientLib.Library.InstallSpy | client/client.go:389-396 | the handler is appended for its key, in place or in a new array, and every pending record still reads the handlers it had |
| ClientLib.Library.HandleRequest | client/client.go:124-167 | a spied request is recorded, a request for a local service answered, and the errors are those of the source |
| ClientLib.Library.HandleReply | client/client.go:195-219 | the recorded spies are called in order and the record dropped, then the reply is offered on its channel if there is one |
| ClientLib.Library.SubscribeUntil | client/client.go:361-387 | the subscriber is appended and the subscription written |
| ClientLib.Library.RunCallbacks | client/client.go:226-236 | the callbacks run are those whose pattern matches, and the positions to remove come last one first |
| ClientLib.Library.RemoveAt | client/client.go:237-241 | the positions are swap-removed in turn, each within bounds |
| ClientLib.Library.HandlePublish | client/client.go:221-243 | after a publish, the subscribers left are, as a multiset, those that were not called or did not ask to be removed |
| Framing.Header | common/net.go:27 | a length below 2^32 is written as four bytes, the most significant first |
| Framing.HeaderLength | common/net.go:27 | the length read back from a header is the one written, modulo 2^32 |
| Framing.ReceivedFrom | common/net.go:41-69 | what one receive makes of any four bytes and what follows them, byte by byte: a length over 8388608 is refused, otherwise the bytes that the read gives, up to the length, followed by zeros |
| Framing.FrameReceived | common/net.go:23-76 | a frame is received as sent, with the rest of the stream left, if and only if the message is at most 8 MiB and the read fills its buffer |
| Framing.OversizeLeavesItsBytes | common/net.go:53-57 | a longer message is refused with only its header consumed |
| Framing.RoundTrip | common/net.go:23-76 | from the frames of any messages of at most 8 MiB, receiving gives those messages and then the end, if and only if every body read fills its buffer |
| Framing.Connection.SendRawMessage | common/net.go:23-38 | one write appends the length in four bytes, the most significant first, and the message |
| Framing.Connection.RecvMessage | common/net.go:41-76 | what one receive returns and leaves unread: end of stream, cut header, oversize, short body and a stream that ends before the body |
| Paths.SplitJoins | common/utils.go:10 | splitting gives pieces without separators, one more than there are separators, that join to the string |
| Paths.NameRoundTrip | common/utils.go:9-23 | a bare name is read back with no identification if and only if it has no dot and not exactly one slash |
| Paths.MethodPathRoundTrip | common/utils.go:9-23 | likewise for name.method, whatever the method |
| Paths.PairRoundTrip | cmd/cellaservctl/main.go:171-177 | name/identification, as services are listed, is read back if and only if neither has a dot or a slash |
| Paths.RequestPathRoundTrip | cmd/cellaservctl/main.go:21-25 | name/identification.method, and the printed form of a request, are read back if and only if neither name nor identification has a dot or a slash |

## Left out

- Protobuf and JSON: messages and event payloads are datatypes, framed messages are opaque bytes, and messages that fail to parse do not reach the model.
- TCP errors, resets and the accept loop: a connection is what has been written to it; a write to one the broker has closed is lost.
- Mutual exclusion and progress of locks: steps stand for handlers or critical sections, and nothing is claimed about blocking. `broker/client.go:125` repeats `RLock` where a release is expected, so a later writer of that mutex would wait for ever.
- Reads outside their locks (`broker/request.go:33`, `broker/publish.go:39-53`): handlers are atomic outside `LockSections`.
- Publish log files and `GetLogsByPattern`: they touch only the file system.
- Prometheus metrics, loggers and timeout durations: a timer is armed or has fired.
- `broker/web`, `cmd` beyond the printed forms of paths, and `testutil`: user interface, wiring and test support.
- The request handlers of the built-in service: only the broker operations that they call are modelled. `handleSpy` is not installed by `Run`, so spying is a broker operation here.
- `Close`, `Quit` and `ClientId` of the client library: shutdown channels depend on how often the application closes, and the id is fetched by an ordinary request.
- User callbacks: a subscriber's answer, a service's answer and a spy handler's call are arbitrary and do not call back into the client.
- Slices of subscribers, services and patterns are sequences: no other slice shares their arrays. The slices of spies, on both sides, are windows on arrays.
- Malformed patterns and a class that could match a slash after a star: `Match` is a backtracking matcher, so it may accept a name that `filepath.Match`, which never goes back over a star once a later part has matched, rejects.
- BrokerObject.Broker.Handle: models a connection with no other in between; connections run side by side in the source, and runs are sequences of steps of all clients. What a failed receive does (`broker/broker.go:88-91`) is not part of this model.
- ClientLib.Library.InstallSpy: does not model the request to the broker that follows (`client/client.go:398-409`).
- ClientLib.Library.SendRequest: does not model the wait for the reply, which `Composition` does.
- Framing.Connection.RecvMessage: takes what one read is given as a parameter, at least one byte when there is one.
