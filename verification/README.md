# Realtime delivery, event streams and token rotation: a Dafny model

The gateway turns messages that arrive on Redis channels into events on browser connections. This project models
the components that have to agree with each other for that, and proves what they promise:

- **The bus** (`go_channels`, `maps`, `channel_names`, `pubsub_bus`, `redis_pubsub`): one upstream subscription, many local
  consumer channels of capacity 64. Go channels are bounded queues with a closed flag; a send on a closed channel
  and a second close are what make Go panic, and are preconditions of the channel operations.
- **The home feed** (`subscription_store`, `feed_wiring`, `feed_hub`): a hub counts the viewers of each post and
  keeps one bridge goroutine per viewed post; a store fans each event out to the viewers' event channels.
- **All interleavings of the home feed** (`feed_runs`, `feed_invariant`, `feed_*_steps`, `feed_theorems`,
  `feed_close_alone`, `feed_delivery`, `feed_order`, `feed_exact_order`, `feed_order_criterion`, `feed_stale_bridge`): a step machine whose steps are
  critical sections and single channel operations. A cancelled bridge may go on taking messages from its closed,
  still buffered channel while a new bridge of the same post is running.
- **Chat** (`chat_index`, `chat_clients`, `chat_store`, `chat_wiring`, `chat_hub`, `chat_leave_all`, `chat_runs`,
  `chat_bus_steps`, `chat_theorems`): a two-way membership index, a table of client channels, and a hub on top of both with a
  rollback and a loop that leaves every room of a user.
- **Laws** (`pubsub_laws`, `feed_laws`, `feed_run_laws`, `feed_publish_alone`, `chat_laws`, `chat_run_laws`, `sse_laws`,
  `auth_laws`): for every operation, when it succeeds, what it changes and what it leaves alone, told by what a caller
  can see, and without the function that the methods are proved equal to.
- **Locks** (`locks`): every call path as a script of lock operations, under a free scheduler.
- **The event stream** (`event_stream`, `event_stream_laws`, `sse_frames`, `sse_exactness`, `sse_writer`, `sse_stream`): what the gateway
  writes, against the parser of sections 9.2.5 and 9.2.6 of the WHATWG HTML Living Standard.
- **Refresh tokens** (`token_table`, `auth_service`, `auth_runs`): rotation and reuse detection with a failure
  possible at every statement.

Each mutable component is a class whose methods are proved equal to a function on values; the laws are then lemmas
about those functions, about the step machines, or about all runs of them. `dafny verify dfyconfig.toml` checks
everything.

## Main results

- Home feed, for every interleaving: nothing panics (`ChannelSafety`); no message enters a connection's channel twice
  (`AtMostOnce`) and what comes from one bridge is an in-order subsequence of what was fanned out to it
  (`PerBridgeOrder`); nothing disappears on either hop but at a full buffer (`BridgeConservation`,
  `ConnectionConservation`, `DropsOnlyWhenFull`, `WholeStream`); between calls hub, store and bus agree (`AtRest`),
  and the whole implements a set of (post, connection) pairs (`Refines`, `BridgedIffViewed`).
- Order across bridges does not hold: `OutOfOrder` is a run in which a connection gets message 1 before message 0.
  `OrderedIff` says exactly when it does: however a run goes on, a connection's events stay in order if and only if, at
  the moment it registers, no bridge but its post's own has anything left to deliver (with the bus closed: at most one
  bridge of the post has).
- Chat, for every interleaving: between calls hub, store and bus agree, an entry existing exactly for the rooms with
  members and counting them (`AtRest`), a failed join restores all it touched (`FailedJoinRestores`), and the index is one relation (`RefinesRelation`).
- Some goroutine can always go on, and every schedule ends (`DeadlockFree`, `StepsAreUsedUp`).
- A stream of written frames and keepalives reads back as what was written (`RoundTrip`), cutting any stream at any
  byte shows a prefix of its events (`PrefixSafety`), and a stream of frames and keepalives reads back if and only if
  no type and no data in it has a line break (`ReadsBackIff`).
- Each refresh token is redeemed at most once, its lineage never forks among clients, and reuse ends the family
  (`RedeemedOnce`, `RotationLineage`, `ReuseClosesFamily`).

## Where the code and its comments disagree

- `Release` is documented as safe for an unknown connection (internal/feed/hub.go:122). The store does ignore one,
  but the count still goes down: `FeedStaleBridge.UnknownReleaseBreaksCount` is a reachable case, and
  `FeedWiring.ReleaseKeepsWiredIff` says exactly when the invariant survives.
- `WriteEvent` asks for data without newlines (internal/sse/writer.go:30-31) and does not check. `events.Split` hands
  a payload that is no envelope through unchanged (internal/events/events.go:39-48), so nothing enforces it.
  `SseExactness.ReadsBackIff` says exactly which streams survive.
- `Unregister` takes a user, so a session that was replaced takes its replacement's channel away when it ends
  (internal/chat/wsstore.go:40-49): `ChatClients.LateUnregisterHitsReplacement`. It spares all other sessions' channels if
  and only if its own is still the user's current one, or the user has none: `ChatClients.UnregisterSparesOthersIff`.

## Assumptions

- The code of the refresh-token repository (`Create`, `GetByHash`, `Revoke`, `RevokeAllForUser`) and of `IsActive` is
  not part of this model. They are taken to be single statements on the table of
  migrations/000001_init_auth.up.sql:31-39: `token_hash` is unique, `Revoke` touches only a row whose `revoked_at` is
  null and otherwise reports that none was found, and a token is active when it is not revoked and has not expired.
  Any statement may fail, and one that is reported as failed may have been applied.
- Hashing is injective, and nobody presents a refresh token that was never handed out. Time does not go back.
- New channels, connection IDs and row IDs are fresh. A handler releases what it acquired, once, and nothing is
  acquired from the feed hub after its Close has begun, as its comment demands (internal/feed/hub.go:162).
- A transport call returns, and succeeds or fails; a failed SUBSCRIBE or UNSUBSCRIBE may have taken effect.
- A connection that has failed a write takes no more bytes.

## Model

| member | source | states |
|---|---|---|
| GoChannels.OfferAll | internal/pubsub/redis.go:152-157 | a fan-out neither closes nor resizes a channel and makes none |
| GoChannels.FreshHolds64 | internal/pubsub/redis.go:70 | every channel is made empty and open with room for 64 |
| GoChannels.OfferAllMeans | internal/pubsub/redis.go:152-157 | each target with room ends in the message, and nothing else changes |
| GoChannels.CloseAllMeans | internal/pubsub/redis.go:119-123 | closing keeps what is buffered and touches no other channel |
| GoChannels.Heap.Make | internal/pubsub/redis.go:70 | a new channel is fresh, empty, open, of capacity 64 |
| GoChannels.Heap.Offer | internal/subscription/inmemorystore.go:141-144 | a non-blocking send on an open channel appends, or drops exactly when the buffer is full |
| GoChannels.Heap.Close | internal/pubsub/redis.go:97 | closing needs an open channel and keeps its buffer |
| GoChannels.Heap.Receive | internal/feed/hub.go:151-154 | a receive takes the oldest buffered value even after close; only a closed and empty channel reports closed |
| ChannelNames.RenderMeans | internal/channels/channels.go:24-31 | a channel name is the prefix of its kind and the ID |
| ChannelNames.RenderIsInjective | internal/channels/channels.go:24-31 | equal channel names come from the same post or the same room, and a post's name is no room's |
| PubSub.WithoutAt | internal/pubsub/redis.go:84-98 | cutting at the first match is the list without that one element, order kept |
| PubSub.WithoutKeepsDistinct | internal/pubsub/redis.go:84-98 | an element removed from a list without repetitions is gone, and none is repeated |
| PubSub.SubscribeKeepsValid | internal/pubsub/redis.go:50-73 | Subscribe keeps: every channel ever made is open and in one list at one index, or closed and in none |
| PubSub.UnsubscribeKeepsValid | internal/pubsub/redis.go:75-109 | so does Unsubscribe, whatever channel it is given and however the transport answers |
| PubSub.FanOutKeepsValid | internal/pubsub/redis.go:144-158 | so does a fan-out |
| PubSub.CloseKeepsValid | internal/pubsub/redis.go:111-135 | so does Close |
| PubSub.ConsumerLifecycle | internal/pubsub/redis.go:50-158 | in every run, at every moment, each consumer channel is open and listed exactly once under its own name, or closed and unlisted |
| PubSub.ClosedStaysClosed | internal/pubsub/redis.go:75-158 | a closed channel is never reopened, never sent to and never listed again |
| PubSub.UpstreamCover | internal/pubsub/redis.go:64-107 | with transport calls failing at will, SUBSCRIBE goes out only for a name without consumers and UNSUBSCRIBE only with the last one's leaving, and while the bus is open every name with a consumer is subscribed upstream; without failures the two sets are equal |
| PubSubLaws.SubscribeSucceedsIff | internal/pubsub/redis.go:54-68 | Subscribe succeeds if and only if the bus is open and the name has a consumer or the transport agrees; ErrClosed exactly when closed |
| PubSubLaws.SubscribeMeans | internal/pubsub/redis.go:64-72 | a new open, empty channel of capacity 64 is appended to the consumers of the name; all other names and channels stay |
| PubSubLaws.FailedSubscribeMeans | internal/pubsub/redis.go:54-68 | a failure leaves lists and channels as they were |
| PubSubLaws.SubscribeAsks | internal/pubsub/redis.go:64-68 | SUBSCRIBE goes out exactly for a name without consumers on an open bus |
| PubSubLaws.IdleUnsubscribeMeans | internal/pubsub/redis.go:79-95 | on a closed bus, or for a channel that is no consumer, nothing changes |
| PubSubLaws.UnsubscribeMeans | internal/pubsub/redis.go:83-107 | otherwise that channel is closed with its buffer kept and cut from the list, the others in order, and an empty name is forgotten; nothing else changes |
| PubSubLaws.UnsubscribeAsks | internal/pubsub/redis.go:100-106 | UNSUBSCRIBE goes out exactly for the last consumer, and its failure is the only error then |
| PubSubLaws.FanOutMeans | internal/pubsub/redis.go:144-158 | whatever the name, every consumer with fewer than 64 messages gets the message last in its buffer, and nobody else anything |
| PubSubLaws.CloseMeans | internal/pubsub/redis.go:111-124 | every channel ever made is closed, with what it had buffered, and none is listed |
| PubSubLaws.ReceiveMeans | internal/feed/hub.go:151-154 | a receive takes exactly the oldest message of one channel |
| RedisBus.ShiftOut | internal/pubsub/redis.go:98 | the in-place shift leaves the live part equal to the old one without the element at `found`, and the rest of the array untouched |
| RedisBus.OfferEach | internal/pubsub/redis.go:152-157 | the loop offers the message once to each listed channel and to no other |
| RedisBus.CloseEach | internal/pubsub/redis.go:119-123 | the loop closes exactly the listed channels |
| RedisBus.RedisPubSub.Subscribe | internal/pubsub/redis.go:50-73 | the new state, the returned error and the fresh channel, for an open and a closed bus, a first and a later consumer, a transport that fails or not |
| RedisBus.RedisPubSub.Find | internal/pubsub/redis.go:84-92 | the search returns the first index of the channel, or -1 exactly when it is not listed |
| RedisBus.RedisPubSub.Unsubscribe | internal/pubsub/redis.go:75-109 | the new state and error, including an unknown channel, the last consumer and a failing transport |
| RedisBus.RedisPubSub.Cut | internal/pubsub/redis.go:98 | the shifted list is the old list without the found element |
| RedisBus.RedisPubSub.FanOut | internal/pubsub/redis.go:144-158 | one message is offered to every consumer of its name, to none once closed |
| RedisBus.RedisPubSub.Close | internal/pubsub/redis.go:111-124 | every listed channel is closed, once, and the table emptied; a second Close does nothing |
| RedisBus.RedisPubSub.Receive | internal/feed/hub.go:151-154 | a bridge's receive takes the oldest message of its channel and changes nothing else |
| SubscriptionStore.AddIsInsert | internal/subscription/inmemorystore.go:74-95 | Subscribe inserts one (post, connection) pair |
| SubscriptionStore.DropIsDelete | internal/subscription/inmemorystore.go:104-126 | Unsubscribe deletes one pair, and an unknown one changes nothing |
| SubscriptionStore.DropShrinks | internal/subscription/inmemorystore.go:119-124 | a post is never left with an empty inner map |
| SubscriptionStore.AddKeepsChannels | internal/subscription/inmemorystore.go:89-92 | registering an open channel nobody else uses keeps all registered channels open and one owner each |
| SubscriptionStore.PublishMeans | internal/subscription/inmemorystore.go:133-146 | each connection of the post gets the event last in its channel if there is room, and no channel registered otherwise changes |
| SubscriptionStore.CloseMeans | internal/subscription/inmemorystore.go:159-168 | the channel of every connection is closed with its buffer kept, and no other |
| SubscriptionStore.OfferEach | internal/subscription/inmemorystore.go:140-145 | the loop offers the event once to every registered channel of the post, in whatever order |
| SubscriptionStore.CloseEach | internal/subscription/inmemorystore.go:163-165 | the inner loop closes exactly the channels of one post |
| SubscriptionStore.Store.Subscribe | internal/subscription/inmemorystore.go:74-95 | the new table, the connection ID and firstForPost |
| SubscriptionStore.Store.Unsubscribe | internal/subscription/inmemorystore.go:104-126 | the new table, and lastForPost exactly when the last connection of the post went |
| SubscriptionStore.Store.Publish | internal/subscription/inmemorystore.go:133-146 | each connection of the post is offered the event, no other channel changes |
| SubscriptionStore.Store.Subscribers | internal/subscription/inmemorystore.go:150-154 | the number of connections of the post |
| SubscriptionStore.Store.Close | internal/subscription/inmemorystore.go:159-168 | every registered channel is closed, once, and the table emptied |
| FeedWiring.AcquireKeepsWired | internal/feed/hub.go:91-114 | Acquire, successful or not, keeps hub, store and bus in agreement: same posts, refs equal to the number of connections, one running bridge and one bus consumer per post |
| FeedWiring.FailedAcquireChangesNothing | internal/feed/hub.go:101-105 | if the bus refuses, entries, store, bridges and consumers are as before |
| FeedWiring.ReleaseKeepsWiredIff | internal/feed/hub.go:124-142 | Release keeps the agreement if and only if the connection is registered for the post or the post has no entry |
| FeedLaws.AcquireSucceedsIff | internal/feed/hub.go:98-105 | Acquire succeeds if and only if the post has viewers already, or the bus is open and the transport agrees |
| FeedLaws.AcquireMeans | internal/feed/hub.go:91-114 | the connection is registered with its own new channel of capacity 64 and counted; all other registrations, entries and event channels stay |
| FeedLaws.FurtherAcquireMeans | internal/feed/hub.go:98-112 | a further viewer leaves bridge and bus alone |
| FeedLaws.FirstAcquireMeans | internal/feed/hub.go:99-108 | the first viewer gets a new running bridge on a new bus channel, the only consumer of the post; nothing else on the bus changes |
| FeedLaws.ReleaseMeans | internal/feed/hub.go:124-142 | the registration goes and the count goes down; all other registrations and entries and every event channel stay |
| FeedLaws.LastReleaseMeans | internal/feed/hub.go:139-141 | the last release cancels the post's bridge and no other, and closes its channel and no other |
| FeedLaws.CloseMeans | internal/feed/hub.go:163-173 | no entry, registration, consumer of a post or running bridge is left; rooms and other channels stay |
| FeedLaws.CloseEndsStreams | internal/feed/hub.go:172 | every registered event channel is closed with its buffer kept, and no other |
| FeedHub.Hub.Acquire | internal/feed/hub.go:91-114 | the new state of hub, bus and store and the returned error, channel and connection ID |
| FeedHub.Hub.Release | internal/feed/hub.go:124-142 | the new state: the store entry goes, the count goes down, and at zero the bridge is cancelled, the bus unsubscribed and the entry deleted |
| FeedHub.Hub.BridgeTurn | internal/feed/hub.go:146-158 | one turn of the select: a buffered message is published to the post's connections unless select prefers a cancelled context; the bridge stops only when cancelled or when its channel is closed and drained |
| FeedHub.Hub.Close | internal/feed/hub.go:163-173 | every bridge cancelled, exactly the entries' channels closed and unlisted, both tables empty, every event channel closed once |
| FeedTheorems.RunKeepsInv | internal/feed/hub.go:91-173 | in every run every state satisfies the composed invariant of hub, bus, store, bridges and connections |
| FeedTheorems.ChannelSafety | internal/feed/hub.go:91-173 | in every interleaving no send hits a closed channel and no channel is closed twice, stale bridges and both Closes included |
| FeedTheorems.AtRest | internal/feed/hub.go:98-141 | whenever no call is in progress, entries, store and bus agree post by post; after Close they are empty |
| FeedTheorems.BridgedIffViewed | internal/feed/hub.go:91-142 | a post has a running bridge, the only consumer of its channel, exactly when some live pair mentions it |
| FeedTheorems.Refines | internal/feed/hub.go:91-173 | in every run each step is an insert, a delete, a clear or nothing on the set of live pairs, also for Releases that arrive after Close |
| FeedTheorems.AcquireAlone | internal/feed/hub.go:91-114 | the steps of an undisturbed Acquire add up to the hub's Acquire |
| FeedTheorems.ReleaseAlone | internal/feed/hub.go:124-142 | the steps of an undisturbed Release add up to the hub's Release |
| FeedCloseAlone.CloseAlone | internal/feed/hub.go:163-173 | the steps of an undisturbed Close, in whatever order it comes to the posts, have the effect of the hub's Close |
| FeedPublishAlone.PublishAlone | internal/subscription/inmemorystore.go:133-146 | the steps of an undisturbed Publish, in whatever order it comes to the connections, leave the event channels as the store's Publish does |
| FeedRunLaws.FanOutReachesBridge | internal/pubsub/redis.go:144-158 | in every state of a run with the bus open, a post's message goes last into the post's bridge's buffer if fewer than 64 are in it, and to no other bridge |
| FeedRunLaws.AttachSucceedsIff | internal/feed/hub.go:101-105 | in every state of a run, the first viewer's Subscribe succeeds if and only if the bus is open and the transport agrees |
| FeedDelivery.BridgeConservation | internal/pubsub/redis.go:144-158 | per bridge, in every reachable state, what was fanned out is what it published, holds, has buffered, and lost at a full buffer |
| FeedDelivery.AtMostOnce | internal/feed/hub.go:146-158 | no message enters a connection's channel twice, whatever bridges were alive |
| FeedDelivery.PerBridgeOrder | internal/feed/hub.go:146-158 | what a connection got from one bridge is in order and a subsequence of what was fanned out to that bridge |
| FeedDelivery.ConnectionConservation | internal/subscription/inmemorystore.go:133-146 | offers to a connection, registered or removed, are received, buffered or dropped, and are exactly what each bridge of its post published from its registration to its removal or to now, but for a message being offered just then |
| FeedDelivery.DropsOnlyWhenFull | internal/subscription/inmemorystore.go:140-145 | a message is dropped only at a buffer holding 64 |
| FeedOrder.NoLoss | internal/pubsub/redis.go:151-157 | in a run in which no buffer fills, neither hop loses anything |
| FeedOrder.WholeStream | internal/subscription/inmemorystore.go:133-146 | and a connection has got exactly what the bridge published since it registered |
| FeedExactOrder.BusMoves | internal/pubsub/redis.go:50-158 | every step of every goroutine is one operation of the bus or leaves it alone |
| FeedExactOrder.SpentStays | internal/feed/hub.go:146-158 | a bridge that has exited, or waits at its closed and empty channel, never delivers again |
| FeedExactOrder.OrderedWhenSole | internal/feed/hub.go:146-158 | while all other bridges of its post are spent, a connection's events stay in order however the run goes on |
| FeedOrderCriterion.Overtakes | internal/feed/hub.go:146-158 | with two bridges that have something to deliver, the later message can arrive first |
| FeedOrderCriterion.OrderedIff | internal/feed/hub.go:98-113 | at every registration in every run: the events stay in order in all continuations if and only if no bridge but the post's own has anything to deliver, or with the bus closed at most one bridge of the post has |
| FeedStaleBridge.OutOfOrder | internal/feed/hub.go:139-158 | a reachable state in which a live connection's channel holds message 1 ahead of message 0 |
| FeedStaleBridge.UnknownReleaseBreaksCount | internal/feed/hub.go:122-142 | a reachable state in which releasing an unknown connection breaks the agreement of hub and store |
| ChatIndex.JoinIsInsert | internal/chat/wsstore.go:51-72 | JoinRoom inserts one pair, and returns true exactly when the user has a client and is not yet a member |
| ChatIndex.LeaveIsDelete | internal/chat/wsstore.go:74-97 | LeaveRoom deletes one pair; removed exactly for a member, roomEmpty exactly for the last one |
| ChatIndex.JoinKeepsValid | internal/chat/wsstore.go:51-72 | joining keeps the two sides equal and both free of empty sets |
| ChatIndex.LeaveKeepsValid | internal/chat/wsstore.go:74-97 | so does leaving |
| ChatIndex.OneForm | internal/chat/wsstore.go:84-95 | without empty sets a relation has one representation |
| ChatIndex.LeaveUndoesJoin | internal/chat/hub.go:46-49 | leaving right after joining restores both maps exactly |
| ChatClients.ClientLifecycle | internal/chat/wsstore.go:26-49 | in every run each channel ever issued is its user's current one and open, or closed; whatever is closed or sent on is open at that moment, so each is closed once |
| ChatClients.ReplacedStaysSilent | internal/chat/wsstore.go:34-36 | a channel that was replaced, unregistered or shut is never sent to again |
| ChatClients.RegisterMeans | internal/chat/wsstore.go:26-38 | a new open, empty channel of capacity 64 for the user, the old one closed with its buffer kept, everybody else untouched |
| ChatClients.UnregisterMeans | internal/chat/wsstore.go:40-49 | the user's channel closed with its buffer kept and the client gone, everybody else untouched |
| ChatClients.CloseAllMeans | internal/chat/wsstore.go:137-141 | no client is left, and every channel ever issued is closed with what it had buffered |
| ChatClients.DeliverReachesMembers | internal/chat/wsstore.go:110-125 | a delivery appends the event to the channel of every member with a client and room for it, and touches no other |
| ChatClients.UnregisterSparesOthersIff | internal/chat/wsstore.go:40-49 | Unregister by the session that was issued a channel changes no other channel if and only if that one is still the user's current channel or the user has none |
| ChatClients.LateUnregisterHitsReplacement | internal/chat/wsstore.go:26-49 | the failing input: a session has been replaced, unregisters, and the replacement's channel is closed |
| ChatStore.WSStore.Register | internal/chat/wsstore.go:26-38 | a fresh open channel becomes the user's, the old one is closed, rooms stay |
| ChatStore.WSStore.Unregister | internal/chat/wsstore.go:40-49 | the user's channel is closed and forgotten, memberships stay |
| ChatStore.WSStore.JoinRoom | internal/chat/wsstore.go:51-72 | the new index and the returned flag |
| ChatStore.WSStore.LeaveRoom | internal/chat/wsstore.go:74-97 | the new index and both returned flags |
| ChatStore.WSStore.RoomsForUser | internal/chat/wsstore.go:99-108 | exactly the user's rooms, each once |
| ChatStore.WSStore.DeliverToRoom | internal/chat/wsstore.go:110-125 | one non-blocking send to every member who has a client |
| ChatStore.WSStore.CountMembers | internal/chat/wsstore.go:127-131 | the size of the member set |
| ChatStore.WSStore.Close | internal/chat/wsstore.go:133-144 | every client channel closed once, all three tables empty |
| ChatWiring.JoinKeepsWired | internal/chat/hub.go:33-57 | a join, successful, redundant or failed, keeps hub and store in agreement |
| ChatWiring.LeaveKeepsWired | internal/chat/hub.go:59-77 | so does a leave |
| ChatWiring.RoomEmptyIffLastRef | internal/chat/hub.go:62-73 | the store reports the room empty exactly when the count reaches zero |
| ChatWiring.FailedJoinChangesNothing | internal/chat/hub.go:46-50 | a join whose Subscribe fails changes neither index nor table nor any consumer |
| ChatLaws.JoinSucceedsIff | internal/chat/hub.go:42-50 | a join by a connected non-member succeeds if and only if the room has members already, or the bus is open and the transport agrees |
| ChatLaws.IdleJoinMeans | internal/chat/hub.go:37-40 | a user without a client, or a member, joins nothing and gets no error |
| ChatLaws.JoinMeans | internal/chat/hub.go:33-57 | the user becomes a member and is counted; no other membership or entry changes |
| ChatLaws.FirstJoinMeans | internal/chat/hub.go:43-53 | the first member's join starts a bridge on a new channel, the room's only consumer; nothing else on the bus changes |
| ChatLaws.IdleLeaveMeans | internal/chat/hub.go:62-65 | a non-member's leave changes nothing |
| ChatLaws.LeaveMeans | internal/chat/hub.go:59-77 | the membership goes and the count goes down; the entry stays exactly while another member does; nothing else changes |
| ChatLaws.LastLeaveMeans | internal/chat/hub.go:74-76 | the last leave cancels the room's bridge and no other, and closes its channel and no other |
| ChatLaws.LeaveAllCounts | internal/chat/hub.go:79-84 | after leaving every room: no entry where the user was alone, one reference less in the user's other rooms, no change elsewhere |
| ChatLaws.TornDownMeans | internal/chat/hub.go:74-76 | rooms torn down have no consumer, a cancelled bridge and a closed channel; all other names, bridges and channels stay |
| ChatLaws.CloseMeans | internal/chat/hub.go:98-107 | after Close no room has a consumer and no bridge runs on |
| ChatHub.Hub.JoinRoom | internal/chat/hub.go:33-57 | the new state and error; the rollback restores the index |
| ChatHub.Hub.LeaveRoom | internal/chat/hub.go:59-77 | the new state, with teardown for the last member |
| ChatHub.Hub.LeaveAllForUser | internal/chat/hub.go:79-84 | the relation loses exactly the user's pairs; exactly the rooms left empty are torn down, the user's other rooms count one less, all others are untouched |
| ChatHub.Hub.BridgeTurn | internal/chat/hub.go:85-97 | one turn of the select delivers the oldest message to the room's members, unless select prefers a cancelled context; the bridge stops only when cancelled or when its channel is closed and drained |
| ChatHub.Hub.Close | internal/chat/hub.go:98-107 | every room torn down, all tables empty, every client channel closed once |
| ChatLeaveAll.LeftOneMore | internal/chat/hub.go:81-83 | one more turn of the loop extends the effect by one room |
| ChatTheorems.RunKeepsInv | internal/chat/hub.go:33-107 | in every run, also with Register, Unregister and deliveries inside a half-done call, every state satisfies the composed invariant |
| ChatTheorems.AtRest | internal/chat/hub.go:33-107 | in every run, whenever no call is in progress, a room has an entry exactly when it has members, refs is their number, with the bus open each entry has one running bridge and the one consumer of its channel, and nothing has panicked |
| ChatTheorems.JoinAlone | internal/chat/hub.go:33-57 | the steps of an undisturbed JoinRoom, rollback included, add up to the hub's JoinRoom |
| ChatTheorems.LeaveAlone | internal/chat/hub.go:59-77 | the steps of an undisturbed LeaveRoom add up to the hub's LeaveRoom |
| ChatRunLaws.DeliveryAlone | internal/chat/wsstore.go:110-125 | the steps of an undisturbed delivery, in whatever order it comes to the members, leave the client channels as DeliverToRoom does |
| ChatRunLaws.AttachSucceedsIff | internal/chat/hub.go:45-50 | in every state of a run, the first member's Subscribe succeeds if and only if the bus is open and the transport agrees |
| ChatTheorems.LastReference | internal/chat/hub.go:62-76 | a member's leaving takes one reference along, and teardown follows exactly at zero |
| ChatTheorems.FailedJoinRestores | internal/chat/hub.go:37-50 | in every run, a join that ends in the rollback restores counts and both sides of the index, whatever clients did meanwhile |
| ChatTheorems.RefinesRelation | internal/chat/wsstore.go:26-144 | in every run each step is an insert, a delete, a clear or nothing on the membership relation, and which |
| ChatTheorems.ClientChannels | internal/chat/wsstore.go:26-144 | in every interleaving a channel is closed exactly when it is nobody's current one, and a send changes only the current channel of its user |
| ChatTheorems.MembershipOutlivesClient | internal/chat/wsstore.go:40-49 | a user who unregisters stays a member, and stays counted |
| Locks.ScriptKeeps | internal/chat/hub.go:33-107 | every call path of feed, chat and bus takes locks in strictly increasing rank and awaits the reader holding none |
| Locks.HubCallMeans | internal/feed/hub.go:95-96 | a hub call takes its own mutex first and drops it last, and in between takes the locks of what it visits |
| Locks.CallsVisit | internal/chat/hub.go:33-77 | which locks Acquire, Release, JoinRoom and LeaveRoom take, in order, on each path |
| Locks.DeadlockFree | internal/pubsub/redis.go:111-158 | in every reachable state, while some goroutine has calls left, some goroutine can step; writers waiting for a lock keep new readers out |
| Locks.StepsAreUsedUp | internal/pubsub/redis.go:111-158 | each step uses up one instruction, so every schedule ends with all calls done |
| EventStreamLaws.LineEndings | internal/sse/writer.go:33-38 | the reader ends a line at LF, at CR and at the pair of both alike (section 9.2.5) |
| EventStreamLaws.LineMeans | internal/sse/writer.go:33-38 | a line is a name, a colon, one optional space and a value, or a name alone (section 9.2.6) |
| EventStreamLaws.FieldMeans | internal/sse/writer.go:33-38 | what the fields event, data, id and retry do, and that others do nothing (section 9.2.6) |
| EventStreamLaws.BlankWithData | internal/sse/writer.go:11 | a blank line dispatches the data, without its last line feed, under the type set or "message" (section 9.2.6) |
| EventStream.PrefixSafety | internal/sse/writer.go:33-38 | for every stream and every cut, a browser has dispatched a prefix of the stream's events |
| SseFrames.RoundTrip | internal/sse/writer.go:45-66 | frames free of CR and LF, mixed with keepalives, read back as exactly the written events; an empty type reads as "message" |
| SseFrames.CutRoundTrip | internal/handlers/sse.go:103-131 | and a cut at any byte shows a prefix of them |
| SseLaws.FrameText | internal/sse/writer.go:53-58 | the bytes of a frame, as text |
| SseLaws.KeepAliveText | internal/handlers/sse.go:116 | the bytes of a keepalive, as text |
| SseLaws.GreetingText | internal/handlers/sse.go:103 | every stream begins with the ready event, byte for byte |
| SseExactness.LineFeedLoses | internal/sse/writer.go:58-60 | in place of a frame whose data has a line feed the browser reads an event with less data, whatever precedes and follows |
| SseExactness.ReadsBackIff | internal/sse/writer.go:29-31 | a stream of frames and keepalives reads back as exactly the written events if and only if no type and no data in it contains CR or LF |
| SseWriter.BufferedWriter.Write | internal/sse/writer.go:51-60 | what was asked for is passed on or buffered, in order; after a failure the connection holds a beginning of it |
| SseWriter.WriteEvent | internal/sse/writer.go:45-66 | nothing without a flusher; otherwise the whole frame, flushed, or the part the connection took |
| SseStream.SubscribePost | internal/handlers/sse.go:96-133 | the client receives the ready event, keepalives and events of the turns up to the end of the stream, cut only where the connection broke |
| SseStream.ClientSees | internal/handlers/sse.go:103-131 | the browser dispatches a prefix of "ready" and the written events, and all of them if nothing was cut |
| SseLaws.KthEvent | internal/handlers/sse.go:121-130 | if the connection took the stream that far, the k-th payload is dispatched after the greeting and the earlier payloads: an envelope with type and data as that, anything else as "message" with the payload itself |
| SseLaws.GreetingFirst | internal/handlers/sse.go:103 | the first event dispatched is "ready" with its status |
| SseLaws.TickWrites | internal/handlers/sse.go:113-119 | a tick adds a keepalive to the stream |
| SseLaws.EndsWith | internal/handlers/sse.go:110-124 | nothing is written once the client has disconnected or its channel was closed |
| TokenTable.TokenRepository.GetByHash | migrations/000001_init_auth.up.sql:31-39 | finds the one row with the token's hash, if there is one |
| AuthService.Service.IssueTokenPairWithRow | internal/services/auth.go:178-211 | one new row, returned only if everything went through; a failed insert may leave the row behind |
| AuthService.Service.Login | internal/services/auth.go:80-98 | a pair only for a known user with the right password; an unknown user and a wrong password are answered alike, a failed lookup as an error |
| AuthService.Service.RefreshToken | internal/services/auth.go:109-145 | table and reply on every path, with early returns between the statements |
| AuthService.Service.LogoutToken | internal/services/auth.go:149-167 | revokes an unrevoked token; unknown and revoked ones are no error |
| AuthService.RefreshSucceedsIff | internal/services/auth.go:109-145 | Refresh succeeds if and only if the token is known, unrevoked, unexpired and every call goes through; the old row then points to the returned one |
| AuthService.RevokedMeansReuse | internal/services/auth.go:122-125 | a revoked token gives ErrTokenReuse, expired or not, and an applied bulk revoke leaves the user no unrevoked row |
| AuthLaws.IssueMeans | internal/services/auth.go:178-211 | a pair exactly when everything goes through; the table then has the drawn token, for this user and until the drawn expiry; a failure leaves at most that row behind, and no other row changes |
| AuthLaws.IssuedTokenRefreshes | internal/services/auth.go:126-145 | an issued token refreshes, if nothing fails, exactly until it expires |
| AuthLaws.RefreshReplies | internal/services/auth.go:109-145 | ErrTokenReuse exactly for a known revoked token, ErrInvalidCredentials exactly for an unknown or an unrevoked expired one |
| AuthLaws.RefreshTouches | internal/services/auth.go:135-142 | apart from reuse only the presented row changes, revoked in favour of the new one or left alone, and only the drawn row is new |
| AuthLaws.RefreshedRow | internal/services/auth.go:135-144 | a successful refresh leaves the drawn token in the table, for the same user, until the drawn expiry |
| AuthLaws.ReuseSparesOthers | internal/services/auth.go:122-125 | reuse revokes the unrevoked rows of the token's user, if the bulk revoke is applied, and changes nothing else, in particular no row of another user |
| AuthLaws.LogoutMeans | internal/services/auth.go:149-167 | Done exactly when the lookup works and there is nothing to revoke or the revoke goes through; the token is then revoked |
| AuthLaws.LogoutTouches | internal/services/auth.go:163 | no row with another token changes, and none is made |
| AuthRuns.RevokedStaysRevoked | internal/services/auth.go:109-167 | no call of any run deletes a row, changes its owner, or changes a revoked one |
| AuthRuns.RotationLineage | internal/services/auth.go:135-142 | in every run with failures anywhere, replaced_by is injective, acyclic and within one lineage, and each login lineage has at most one unrevoked token that a client holds |
| AuthRuns.RedeemedOnce | internal/services/auth.go:109-145 | a token that was redeemed never is again |
| AuthRuns.ReuseClosesFamily | internal/services/auth.go:122-125 | after a presented revoked token and an applied bulk revoke, no earlier token of that user ever refreshes again |
| AuthRuns.ExpiredStaysExpired | internal/services/auth.go:126-128 | an expired token is never redeemed later in the run |
| AuthLaws.OnlyOwnRowsChange | internal/services/auth.go:109-167 | in every run a row is changed only by a call with a token of its own user |
| AuthLaws.LogoutEndsSession | internal/services/auth.go:149-167 | after a logout answered Done, no token that was in the table then refreshes again in any continuation |

## Left out

- FeedHub.Hub.BridgeTurn: the endless loop of a bridge appears as single turns here and as steps of the run machine; that a bridge eventually exits is not stated.
- ChatHub.Hub.BridgeTurn: as for the feed; in the chat runs bridges deliver anything at any time, so that delivery order and conservation are stated for the feed only.
- RedisBus.RedisPubSub.Unsubscribe: lists are values, so that two names could share a backing array is not modelled; the shift itself is done in place on the list's own array.
- AuthRuns.RedeemedOnce: for calls one after the other; concurrent calls with the same token are not covered, the code takes no lock between lookup and revoke.
- SubscriptionStore.Store.Subscribe: the channel passed in is open and not registered already, as the feed hub's is; for another one the store's Close would panic, or close a caller's channel twice.
- SseStream.SubscribePost: `out` is the event stream only; the JSON error body written when the response cannot flush is not modelled.
- Locks.DeadlockFree: the reader's input is finite once the transport is closed; fairness of the scheduler is not modelled beyond "some goroutine can step".
- The Redis client, reconnects and acknowledgement timing: the transport is a success or failure per command and a stream of numbered messages.
- JSON encoding and decoding: what a payload decodes to is a parameter of the handler's turn.
- UTF-8 decoding in the event-stream parser: it works on bytes; invalid sequences are not replaced.
- Reconnection after an event stream ends, and the browser's use of the `retry` and `id` fields beyond storing them.
- Timing: heartbeat intervals, shutdown deadlines and token lifetimes; only the order of time is kept.
- JWT signing, password hashing, random generation: success or failure, and fresh values.
- The bus's Publish, the dispatcher, other HTTP handlers, middleware, configuration and logging: straight-line code or single checks.
- The authorisation checks at the start of the SSE handler and its deferred Release; the latter is the Release of the feed hub.
- Deleting a user, which cascades to the token table.
- Feed queries, comment paths and post versions exist as schema only.
