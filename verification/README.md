# APS: a verified model of the hub, the broker and their helpers

APS is a self-hosted clone of Pusher Channels. Clients hold WebSocket connections to a *hub*; several hubs share
one *broker*, which carries published events between them and holds the presence tables. This project models the
parts of the Go code with the most state and interleaving and proves what they keep, over all inputs and all runs.

**The hub as a concurrent protocol.** `HubSteps` is an interleaved step system: every connection has its own
program counter, one step is one section under `h.mu` or one broker call, and any other connection of any hub may
move in between. `HubMembership` and `HubTheorems` prove what every interleaving keeps: one broker subscription
per channel, indexes and presence tables in step, complete clean-up, verified members. `Fanout`,
`FanoutInvariant` and `FanoutTheorems` add messages in flight (local fan-outs, broker queues, bounded send
channels) and prove at-most-once and exactly-once delivery across the cluster; `FanoutOrder` proves that what one
broker subscription accepts is delivered in the order of publication.

**Whole operations.** `PresenceRuns` runs each hub operation as an uninterrupted sequence of the same steps and
lets what it broadcasts arrive at once. `RosterRuns` proves that the roster each presence subscriber pieces
together from its messages is the broker's, with the exact condition for one operation and for whole runs;
`WebhookRuns` proves exactly when the occupied and vacated notifications alternate.

**The hub as an object.** `LocalHub` is one hub as the code has it: fields updated in place, loops over maps,
connections with bounded channels. Its methods are proved against the functions of `HubState`, and
`LocalRefinement` proves that those functions do to one hub's fields what the uninterrupted step runs do to that
hub's part of the cluster, and that those runs do nothing to any other hub's part. `LocalFrames` adds what goes
out: for `Register`, `Subscribe`, `Unsubscribe` and `Unregister` the messages in the connections' own channels and
the occupied and vacated notifications are those of the whole operations of `PresenceRuns`, and on the other hubs
the messages are, once they have handled what the hub published. `LocalRuns` puts this together over runs of all
hubs: wherever the rosters of `RosterRuns` are in step, a client that can decode the hub's JSON texts pieces
together exactly the broker's users from the messages that it read and that the hub's fields still hold for it.
`HubEffects` spells out, connection by connection, what each operation puts into the channels, and `LocalEvents`
proves that a fan-out on the hub's fields (of a broadcast, a client event, or another hub's message) is the steps
of one fan-out of `Fanout`.

**Broker, limiter, store, signing.** `Broker` and `RedisBroker` are the two brokers' presence layouts as classes;
`Presence` proves that both refine one abstract table of rosters. `SubscriptionQueue` is one bounded subscription
over all its histories. `RateLimit` gives the token bucket an exact closed form and proves it optimal;
`KeyedRateLimit` proves that the double-checked keyed limiter decides for each key like a private limiter.
`History` proves that truncated per-channel buffers answer like the unbounded log, and exactly when, both for
truncation and for messages with equal timestamps, which the sort may swap; `AppIndex` does the same for the
application key index. `RequestSigning` proves the canonical string, the sign and verify round trip, exactly
which requests can be read back from the string they sign, and what an auth string or a signature is good for:
it passes under exactly the secret and string that give its digest. `SocketIDs` shows that one process never gives
a socket ID twice before its counter wraps around.

Properties that turn out not to hold in general are given as an exact condition (lemmas ending in `Iff`) or
with a counterexample (`LongLimitFallsShort`, `TiesReorder`, `ColonsCollide`, `DataReadsAsChannel`,
`MovedKeyOutlives`, `SecondSocketMisleads`).
One place where the documentation promises more than the code does: docs/api/webhooks.md:16-17 describes
`channel_occupied` and `channel_vacated` for every channel, but the code counts presence entries only
(`WebhookRuns.OthersNeverOccupied`, `WebhookRuns.OthersVacatedByAnyLeave`).

Assumptions, stated as `requires` or as the guard of a step:

- application IDs contain no colon (they are decimal), which makes `appID + ":" + channel` injective;
- socket IDs are unique across hubs and not empty, and hub IDs are not empty;
- `pubsub.Subscribe` succeeds;
- the limiter's clock never goes back, except in `LevelIsLeast`, and its rate is not negative; message timestamps
  may be any;
- the roster theorems speak of connections whose send channel never overflowed. Rosters are in step all along a
  run exactly if it is a `HarmlessRun` (every join and leave is safe or nobody else with room watches the channel);
  one socket per user and channel and no empty user ID are enough for that;
- in `LocalRuns` another hub handles what a hub published before the next call.

HMAC-SHA256 (section 2 of RFC 2104) and MD5 are arbitrary functions (`Hashes`). `AuthIsOwnIff`,
`SignedUnderSecretIff`, `SignatureIsOwnIff` and `SignedPartIsKept` assume in addition that no two pairs of key and
message have one digest (`Injective`), which stands for the absence of collisions; what holds without it is in
`AuthVerifiesIff` and `SignedIsAcceptedIff`. JSON texts are arbitrary functions of what goes into
them (`Encoder`). In the step systems the store's key and secret for each application are part of the state, and a
move may change them at any time; in `LocalHub` the store's answer is a parameter. Clock readings, random numbers
and decoded requests are parameters. A `*Client` pointer is its hub, application and socket ID.

## Definitions

The functions that the contracts below speak about, with the code each one models:

- `HubIndex.Register` (`internal/ws/hub.go:66-69`): the section of `Register`, shared by the step system and the class
- `HubIndex.Drop` (`internal/ws/hub.go:80-97`): the index part of the section of `Unregister`
- `HubIndex.Leave` (`internal/ws/hub.go:260-269`): the section of `Unsubscribe`: an empty channel goes, and its subscription with it
- `HubIndex.Recipients` (`internal/ws/hub.go:359-387`): members of the channel and of `"*"`, each once, less the excluded socket
- `HubSteps.Authorized` (`internal/ws/hub.go:113-155`): the checks of `Subscribe`, under the key and secret that the store has for the client's application at that step
- `HubSteps.DoBeginSubscribe` (`internal/ws/hub.go:111-155`): goes on only if they pass; a failed one leaves the connection as it was
- `HubSteps.DoSetApp` (`internal/store/memory.go:88-166`): an application is created, changed or deleted while connections are open
- `HubSteps.DoJoin` (`internal/ws/hub.go:169-182`): enters the channel; a first local subscriber goes on to open the broker subscription
- `HubSteps.DoRecord` (`internal/ws/hub.go:434-438`): the later `channelSubs` write, after which the reader runs
- `HubSteps.DoLeave` (`internal/ws/hub.go:258-272`): leaves under the lock; the last local member closes the recorded subscription
- `HubSteps.DoRemovePresence` (`internal/ws/hub.go:272-279`): removes the presence entry and announces it only for a non-empty user ID
- `HubSteps.DoBeginUnregister` (`internal/ws/hub.go:79-104`): drops the connection's index entries and copies its channel list in any order
- `HubSteps.Step` (`internal/ws/client.go:141-180`): one step of one connection's sequential goroutine; the others may move in between
- `Fanout.NewCall` (`internal/ws/hub.go:395-406`): a broadcast begins with its own hub's fan-out
- `Fanout.DoSnapshot` (`internal/ws/hub.go:359-387`): the recipients are fixed under the lock
- `Fanout.DoSend` (`internal/ws/client.go:68-76`): one send; a full channel drops the frame
- `Fanout.DoPublish` (`internal/pubsub/memory.go:68-87`): the payload enters every open subscription to its topic that has room
- `Fanout.DoRead` (`internal/ws/hub.go:438-450`): the reader skips its own hub's payloads and fans out the others
- `Fanout.Next` (`internal/ws/hub.go:311-452`): one step of the cluster with its messages in flight
- `PresenceRuns.Subscribed` (`internal/ws/hub.go:111-186`): `Subscribe` as the uninterrupted run of its own steps
- `PresenceRuns.Left` (`internal/ws/hub.go:255-274`): `Unsubscribe` as the uninterrupted run of its own steps
- `PresenceRuns.DoSubscribe` (`internal/ws/hub.go:185-252`): roster to the newcomer, `member_added` to the others, then the occupancy check
- `PresenceRuns.DoUnsubscribe` (`internal/ws/hub.go:272-308`): `member_removed` to the others, then the vacancy check
- `LocalHub.Offered` (`internal/pubsub/memory.go:68-87`): every broker subscription has been offered what the hub published since, in order; a new one started empty
- `LocalFrames.Shows` (`internal/ws/hub.go:65-309`): one hub's fields are its part of the cluster, and its connections' channels hold the frames sent and not yet written
- `LocalRuns.NetStep` (`internal/ws/hub.go:65-449`): one call on its own hub's fields, while the other hubs handle what it publishes
- `RosterRuns.Safe` (`internal/ws/hub.go:185-279`): a join takes no user's last entry away; a leave is announced exactly when no other socket of the user stays
- `RosterRuns.Watched` (`internal/ws/client.go:68-76`): another subscriber that lost nothing so far has room for what the call sends
- `Fanout.ReaderFree` (`internal/ws/hub.go:438-450`): the one reader of a subscription has finished the fan-out of what it took last
- `LocalFrames.Heard` (`internal/ws/hub.go:440-449`): what a hub sends when its recorded subscriptions receive other hubs' payloads
- `HubEffects.Told` (`internal/ws/client.go:68-76`): the connection with one more message in its channel, if it gets it and there is room
- `HubEffects.Listening` (`internal/ws/hub.go:359-387`): in the hub's set for the channel or for `"*"`, and not the excluded socket
- `LocalEvents.Mirrors` (`internal/ws/client.go:68-76`): one hub's fields are its part of the cluster, and its connections' channels hold the step system's frames that are sent and not yet written
- `History.MayAnswer` (`internal/store/memory.go:386-406`): an answer that some sorted order of the kept messages gives
- `KeyedRateLimit.Next` (`internal/ratelimit/ratelimit.go:62-78`): the interleaved sections of the double-checked creation and the decision
- `RequestSigning.GenerateChannelAuth` (`internal/auth/pusher_auth.go:26-39`): the auth string of a socket, a channel and channel data

## Model

| member | source | states |
|---|---|---|
| ChannelKeys.KeyInjective | internal/ws/hub.go:167 | keys of colon-free application IDs determine application and channel |
| ChannelKeys.SameAppKey | internal/ws/hub.go:158 | within one application a key determines the name, whatever its colons |
| ChannelKeys.PrefixPicksApp | internal/store/memory.go:388-390 | a key starts with an application's prefix iff it is that application's |
| ChannelKeys.KeysCollideIff | internal/ws/hub.go:167 | two application IDs can share a key iff they are equal or one followed by a colon starts the other |
| ChannelKeys.ColonsCollide | internal/pubsub/memory.go:111 | for instance two different channels of such applications |
| Messages.TopicIff | internal/ws/hub.go:427 | two channel keys have the same broker topic iff they are equal |
| HubMembership.JoinKeepsSubs | internal/ws/hub.go:169-182 | joining keeps: one pending or recorded subscription per channel, no leak, no double |
| HubMembership.OpenKeepsSubs | internal/ws/hub.go:429-432 | opening keeps it while nothing is recorded yet |
| HubMembership.RecordKeepsSubs | internal/ws/hub.go:434-436 | recording keeps it, although the lock was released since the join |
| HubMembership.LeaveKeepsSubs | internal/ws/hub.go:258-270 | leaving keeps it: the last member finds the subscription recorded |
| HubMembership.ActKeepsSets | internal/ws/hub.go:169-177 | every step keeps channel sets and clients' own sets equal, and no set empty |
| HubMembership.ActKeepsPresence | internal/ws/hub.go:185-186 | every step keeps presence entries equal to memberships outside the window between the two |
| HubMembership.ActKeepsIndex | internal/ws/hub.go:86-97 | every step keeps the client, socket and user indexes exact |
| HubMembership.ActKeepsUser | internal/ws/hub.go:157-165 | every step keeps the current user ID among those the connection was indexed under, except just before that section |
| HubTheorems.StepKeepsInv | internal/ws/hub.go:65-309 | every step of every connection, or a new connection, keeps the whole invariant |
| HubTheorems.RunKeepsInv | internal/ws/hub.go:65-309 | the invariant holds after every run of any number of hubs and connections |
| HubTheorems.OneSubscriptionPerChannel | internal/ws/hub.go:169-182 | a channel is listed iff one open subscription is recorded for it or exactly one member is still to record one, never both; nothing else is ever open |
| HubTheorems.OpenSubIff | internal/ws/hub.go:425-436 | a subscription is open iff it is the recorded one or its opener is about to record it |
| HubTheorems.SetsInStep | internal/ws/hub.go:258-274 | a client is in a channel's set iff the channel is in its own, no set is empty, and a presence entry exists iff it is a member |
| HubTheorems.UnregisterCleansUp | internal/ws/hub.go:79-109 | after `Unregister` the socket is in no channel set, no presence table and no socket index, whatever ran in between |
| HubTheorems.UserEntriesCleanedIff | internal/ws/hub.go:89-97 | it is in no user's set iff it only ever used its last, non-empty user ID |
| HubTheorems.UserSetIff | internal/ws/hub.go:470-490 | `TerminateUser` finds exactly the hub's connections of the application ever indexed under the ID, less those that unregistered with it as their last |
| HubTheorems.OthersUntouched | internal/ws/hub.go:99-108 | no step of one connection changes another's memberships, entries in the client, socket and user indexes, or presence |
| HubTheorems.HoldersPassed | internal/ws/hub.go:113-155 | whoever is in a channel, or past the checks for it, passed them at an earlier step and has not left since |
| HubTheorems.PassedIff | internal/ws/hub.go:111-155 | a subscription gets past the checks iff the connection is in its read loop, the channel is named, the application exists, the auth string is the right one where one is needed, and a presence channel has a user |
| HubTheorems.StoreIsLatest | internal/store/memory.go:88-166 | the key and secret that the checks use are those last set for the application, and none if it was deleted last |
| HubTheorems.MembersAreVerified | internal/ws/hub.go:113-142 | whoever is in a channel `private-…` or `presence-…` sent, for its present stay, the key, a colon and the hex digest of exactly that socket and channel under the key and secret that its own application then had in the store |
| FanoutInvariant.SendServes | internal/ws/client.go:68-76 | sending keeps: copies sent, lost and still due add up to one per recipient and zero for others |
| FanoutInvariant.SnapshotServes | internal/ws/hub.go:359-392 | so does taking the recipients, who are all of the hub and application and not excluded |
| FanoutInvariant.OpenUnique | internal/ws/hub.go:425-436 | a hub has at most one open subscription to a topic |
| Fanout.TargetsByTopic | internal/pubsub/memory.go:73-84 | the subscriptions that a publication reaches are the open ones to its topic |
| FanoutInvariant.PublishRoutes | internal/pubsub/memory.go:68-87 | publishing keeps: a call is in at most one queue of each hub, and once |
| FanoutInvariant.ReadRoutes | internal/ws/hub.go:438-450 | reading keeps: an accepted call is queued or fanned out on that hub, never both |
| FanoutTheorems.NextKeepsInv | internal/ws/hub.go:311-452 | every step of the cluster keeps membership and traffic invariants |
| FanoutTheorems.AfterKeepsInv | internal/ws/hub.go:311-452 | they hold after every run |
| FanoutTheorems.HubRunsInside | internal/ws/hub.go:65-309 | every run of the hubs without broadcasts is a run of the cluster, with nothing in flight |
| FanoutTheorems.AtMostOnce | internal/ws/hub.go:355-452 | no connection gets a call twice, the excluded socket and other applications never |
| FanoutTheorems.SettledDelivery | internal/ws/hub.go:395-452 | a finished call was fanned out on its own hub and on exactly the hubs whose queue accepted it; each recipient has it once or lost it to a full channel |
| FanoutTheorems.SnapshotDecides | internal/ws/hub.go:359-387 | at the step that takes a hub's recipients, a connection is one of them for good iff it listens just then |
| FanoutTheorems.ChosenIff | internal/ws/hub.go:359-387 | so a connection is a recipient iff its hub took the recipients at a step at which it listened |
| FanoutTheorems.DeliveredIff | internal/ws/hub.go:355-452 | a finished call is delivered at most once to each connection, and once iff it listened at that step and did not lose it |
| FanoutTheorems.PublishReachesRecorded | internal/pubsub/memory.go:73-84 | a publication reaches each hub's recorded subscription; only a full queue refuses it |
| FanoutTheorems.RemoteExactlyOnce | internal/ws/hub.go:395-452 | if a hub has a recorded subscription with room when the call is published, a connection there that listens when the recipients are taken gets the finished call exactly once, unless its own channel was full |
| FanoutTheorems.LocalExactlyOnce | internal/ws/hub.go:405-406 | on the call's own hub a connection that listens when the recipients are taken gets it exactly once, unless its channel was full |
| FanoutTheorems.ListensIff | internal/ws/hub.go:359-387 | listening means: same application, in the channel or in `"*"`, not excluded |
| FanoutTheorems.ClientEventsAreAuthorized | internal/ws/hub.go:311-340 | a client event is forwarded only for a member that passed the checks of `Subscribe` for its present stay, under its application's key and secret of that step, as that channel's event without the sender |
| FanoutTheorems.ClientEventsStayInChannel | internal/ws/hub.go:327-340 | whoever gets it is another connection of the same application that was in that channel or in `"*"` when, after the event, its hub took the recipients |
| FanoutOrder.NextKeepsOrder | internal/ws/hub.go:438-450 | every step keeps: the reader is done with all it took but the last, and copies of earlier calls come first |
| FanoutOrder.PublishedInOrder | internal/ws/hub.go:438-450 | of two publications of other hubs that one broker subscription accepted, every connection gets the copies in the order of publication |
| PresenceRuns.SubscribedEffect | internal/ws/hub.go:111-186 | what that run does to the connection, the indexes and the presence tables, refused or accepted |
| PresenceRuns.LeftEffect | internal/ws/hub.go:255-274 | what the unsubscribing run does to them, from the read loop or from `Unregister` |
| PresenceRuns.LeaveAnnounces | internal/ws/hub.go:272-279 | the leaving goroutine announces exactly the non-empty user ID of the entry it removed, and otherwise goes on at once |
| PresenceRuns.PerformCalm | internal/ws/hub.go:65-309 | between whole operations the invariant holds and every connection rests |
| RosterRuns.AudienceIff | internal/ws/hub.go:355-452 | between operations a broadcast reaches exactly the channel's members on all hubs and the `"*"` subscribers on its own hub and on hubs with a member, less the excluded socket |
| RosterRuns.JoinStepIff | internal/ws/hub.go:185-220 | after a join the newcomer's roster is the broker's, and another subscriber's stays so iff no user loses its last entry |
| RosterRuns.LeaveStepIff | internal/ws/hub.go:272-279 | after a leave a subscriber's roster stays the broker's iff the user is announced exactly when none of its sockets stays |
| RosterRuns.PerformKeepsRostersIff | internal/ws/hub.go:185-289 | a call keeps every watching subscriber's roster equal to the broker's user set iff it is safe or nobody watches |
| RosterRuns.RostersConvergeIff | internal/ws/hub.go:185-289 | rosters equal the broker's user set after every call of a run iff every call is safe or watched by nobody |
| RosterRuns.RostersConverge | internal/ws/hub.go:185-289 | in particular in runs of safe calls |
| RosterRuns.OneSocketPerUserConverges | internal/ws/hub.go:185-289 | in particular where joins bring no second socket, second ID or empty ID |
| RosterRuns.SecondSocketMisleads | internal/ws/hub.go:274-279 | after any run in which two sockets of one user are in a channel, one of them leaving makes every other subscriber that lost nothing drop a user whom the broker still reports |
| RosterRuns.MisleadingRun | internal/ws/hub.go:111-279 | such a run exists for any three clients of one application: two join as one user, a third is in step until the second leaves, and not after |
| WebhookRuns.WebhooksAlternateIff | internal/ws/hub.go:246-252 | a presence channel's notifications alternate from occupied iff no call is redundant; then the last one says whether it has members |
| WebhookRuns.RedundantRepeats | internal/ws/hub.go:302-308 | a redundant call is a member joining again or a non-member leaving |
| WebhookRuns.JoiningOnceAlternates | internal/ws/hub.go:246-252 | so the notifications alternate in every run in which only non-members join the channel and only members leave it |
| WebhookRuns.OthersNeverOccupied | internal/ws/hub.go:246-252 | a public or private channel is never reported as occupied |
| WebhookRuns.OthersVacatedByAnyLeave | internal/ws/hub.go:302-308 | and is reported as vacated whenever anyone leaves it |
| WebhookRuns.OthersToldPerLeave | internal/ws/hub.go:246-308 | so over a run its notifications are exactly one vacated for each leave |
| WebhookRuns.OthersAlternateIff | internal/ws/hub.go:246-308 | and they alternate iff nobody ever leaves |
| LocalHub.Connection.SendPusher | internal/ws/client.go:68-76 | queues the message, or drops it when 256 are queued |
| LocalHub.Hub.Register | internal/ws/hub.go:65-77 | the whole new state: indexes, connection, greeting |
| LocalHub.Hub.Unregister | internal/ws/hub.go:79-109 | the new state as the fold of unsubscriptions over a duplicate-free copy of the client's channels; each broker queue was offered exactly what the hub published |
| LocalHub.Hub.Subscribe | internal/ws/hub.go:111-253 | the new state for each outcome of the checks, and what every broker queue holds |
| LocalHub.Hub.Unsubscribe | internal/ws/hub.go:255-309 | the new state and what every remaining broker queue holds; the last local member's leaving closes the recorded broker subscription |
| LocalHub.Hub.Depart | internal/ws/hub.go:258-270 | the last local member's leaving closes the recorded subscription |
| LocalHub.Hub.EnsurePubSubSubscription | internal/ws/hub.go:425-436 | records a new, open, empty subscription to exactly the channel's topic |
| LocalHub.Hub.Collect | internal/ws/hub.go:366-386 | the loops over the two sets list every recipient once |
| LocalHub.Hub.BroadcastLocal | internal/ws/hub.go:355-392 | every recipient's channel gets the message once, nothing else changes |
| LocalHub.Hub.BroadcastCluster | internal/ws/hub.go:405-422 | local fan-out, then of the hub's subscriptions only the one to that channel gets the payload, if it is open and has room |
| LocalHub.Hub.PublishToCluster | internal/ws/hub.go:411-422 | of the hub's subscriptions only the one to the payload's channel has one more message, the payload, iff it is open and has room |
| LocalHub.TakesOwnPayloads | internal/ws/hub.go:425-449 | on any hub a subscription to a channel's topic takes exactly the channel's payloads, in order, until 256 are queued |
| LocalHub.Hub.HandleMessage | internal/ws/hub.go:440-449 | the hub's own payloads are skipped, others fanned out locally |
| LocalHub.Hub.HandleClientEvent | internal/ws/hub.go:311-352 | from a member of a `private-…` or `presence-…` channel: every connection in the hub's sets for that channel or `"*"` but the sender has the event at the end of its channel if there is room, the payload is out and notified; from anyone else one error 4009 to the sender and nothing more |
| LocalHub.Hub.TerminateSocket | internal/ws/hub.go:455-467 | the connection with that ID, if there is one, is closed and told 4004 if it has room; no other |
| LocalHub.Hub.TerminateUser | internal/ws/hub.go:470-490 | each of the user's connections is closed and told 4004 once if it has room, no other is, and they are counted |
| HubEffects.RegisteredTo | internal/ws/hub.go:65-77 | a new connection has the greeting and nothing else; the others are as they were |
| HubEffects.SubscribedIs | internal/ws/hub.go:113-155 | no application, or no user in a presence channel: error 4001; a guarded channel without the right auth string: error 4009; else admission |
| HubEffects.AdmittedTo | internal/ws/hub.go:157-240 | the newcomer is in the channel and has the roster, or a plain acknowledgement; the channel's other members and the `"*"` subscribers have `member_added` |
| HubEffects.AdmittedRest | internal/ws/hub.go:185-252 | its entry has the user ID and info it presented; `member_added` and, for a first entry, `channel_occupied` are notified |
| HubEffects.UnsubscribedTo | internal/ws/hub.go:255-290 | the client is out of the channel; the others have `member_removed` iff its entry had a user ID |
| HubEffects.UnsubscribedRest | internal/ws/hub.go:272-309 | the entry is gone; `member_removed` and, for an empty channel, `channel_vacated` are notified, and the payload is out |
| LocalRefinement.SubscribeRefines | internal/ws/hub.go:111-186 | `Subscribe` on one hub's fields agrees with the step run on that hub's part of the cluster, whatever the checks say |
| LocalRefinement.UnsubscribeRefines | internal/ws/hub.go:255-274 | so does `Unsubscribe` |
| LocalRefinement.UnregisterRefines | internal/ws/hub.go:79-109 | and `Unregister`, for each order in which the channels are copied |
| LocalRefinement.UnregisterLeavesNothing | internal/ws/hub.go:79-109 | after `Unregister` the client is in none of the hub's client and channel sets, not under its socket ID and in no presence table; it is under no user ID iff it was only ever indexed under its last, non-empty one |
| LocalRefinement.RegisterRefines | internal/ws/hub.go:65-69 | and `Register` |
| LocalRefinement.SubscribeElsewhere | internal/ws/hub.go:111-186 | a subscription changes no other hub's maps and connections |
| LocalRefinement.UnsubscribeElsewhere | internal/ws/hub.go:255-274 | nor does an unsubscription |
| LocalRefinement.RegisterElsewhere | internal/ws/hub.go:65-69 | nor a registration |
| LocalRefinement.UnregisterElsewhere | internal/ws/hub.go:79-109 | nor `Unregister`, at any of its channels |
| LocalFrames.SubscribeShows | internal/ws/hub.go:111-253 | what `Subscribe` puts into the connections' channels and what it notifies are the frames and notifications of the whole operation |
| LocalFrames.UnsubscribeShows | internal/ws/hub.go:255-309 | so for `Unsubscribe` |
| LocalFrames.RegisterShows | internal/ws/hub.go:65-77 | and `Register` |
| LocalFrames.UnregisterShows | internal/ws/hub.go:79-109 | and `Unregister`, channel by channel in the order of its copy |
| LocalFrames.SubscribeHeard | internal/ws/hub.go:440-449 | another hub that handles what the subscribing hub published sends what the whole operation sends to its connections |
| LocalFrames.UnsubscribeHeard | internal/ws/hub.go:440-449 | so for a departure |
| LocalFrames.RegisterHeard | internal/ws/hub.go:440-449 | and for a registration, of which it hears nothing |
| LocalFrames.UnregisterHeard | internal/ws/hub.go:440-449 | and for `Unregister`, up to any of its channels |
| LocalEvents.FanOutMirrors | internal/ws/hub.go:355-392 | `BroadcastLocal` on the hub's fields gives its connections what one fan-out of the step system gives them, in whichever order it sends |
| LocalEvents.BroadcastMirrors | internal/ws/hub.go:405-422 | so does `BroadcastCluster`, and the publication reaches the queues of exactly the open subscriptions to the topic with room |
| LocalEvents.AnnouncedIs | internal/ws/hub.go:212-231 | a goroutine's announcement is a call for that channel's `member_added` or `member_removed` without its own socket |
| LocalEvents.ForwardedMirrors | internal/ws/hub.go:311-352 | so does a client event that the step system forwards, with the same payload published |
| LocalEvents.RefusalMirrors | internal/ws/hub.go:313-325 | and one that it does not forward sends an error frame and nothing else |
| LocalEvents.HandledMirrors | internal/ws/hub.go:440-449 | and a message from the broker: the hub's own is dropped, another's fanned out |
| LocalEvents.WrittenMirrors | internal/ws/client.go:121-139 | taking a frame from a connection's channel is the writer's step |
| LocalEvents.ForwardedIff | internal/ws/client.go:195-202 | a client event is forwarded iff the connection is in its read loop and in that private or presence channel, and the event is `client-` and more |
| LocalEvents.ReturnedIff | internal/ws/hub.go:327-340 | the sender goes on iff its fan-out and its publication are over |
| LocalEvents.ReadIff | internal/ws/hub.go:438-450 | a reader takes a message iff one is queued and it is done with the one before |
| LocalEvents.WrittenIff | internal/ws/client.go:121-139 | a writer takes a frame iff one is waiting |
| LocalRuns.OwnShows | internal/ws/hub.go:65-309 | one call leaves its own hub's fields and channels its part of the cluster |
| LocalRuns.NetRuns | internal/ws/hub.go:65-449 | so after every run each hub's fields and channels are its part of the cluster, and clients have read what was written |
| LocalRuns.PiecedIsFold | internal/ws/hub.go:188-289 | decoding the messages gives the roster that the frames give |
| LocalRuns.ClientsAgreeWithBroker | internal/ws/hub.go:185-289 | in harmless runs a presence subscriber that lost nothing decodes, from what it read and what its hub still holds for it, exactly the users in the broker's table |
| SocketIDs.SocketIDInjective | internal/ws/client.go:18-22 | a socket ID determines its counter and random parts |
| SocketIDs.NoColon | internal/ws/client.go:18-22 | and has no colon, as the signed strings need |
| SocketIDs.Generator.GenerateSocketID | internal/ws/client.go:18-22 | the counter, a dot and the random part; until the counter wraps around no ID is given twice |
| Broker.MemorySubscription.Close | internal/pubsub/memory.go:30-39 | closes once and leaves the broker's list |
| Broker.MemorySubscription.Receive | internal/pubsub/memory.go:17-19 | takes the oldest queued message |
| Broker.MemoryPubSub.RemoveSub | internal/pubsub/memory.go:56-66 | the in-place splice is a filter: all other subscriptions stay, in order |
| Broker.MemoryPubSub.Publish | internal/pubsub/memory.go:68-87 | every open subscription to the topic that has room gets the message once |
| Broker.MemoryPubSub.Subscribe | internal/pubsub/memory.go:89-105 | a new open subscription with an empty queue, last in the list |
| Broker.MemoryPubSub.AddPresenceMember | internal/pubsub/memory.go:107-122 | the socket's one entry in the channel's table, and the table's size in the cache |
| Broker.MemoryPubSub.RemovePresenceMember | internal/pubsub/memory.go:124-147 | the socket's entry is gone, an empty table with it, and its user ID is reported |
| Broker.MemoryPubSub.GetPresenceMembers | internal/pubsub/memory.go:149-164 | exactly the roster's users, each with the info of one of its sockets |
| Broker.MemoryPubSub.GetChannelOccupancy | internal/pubsub/memory.go:166-172 | the cached count, which is the roster's size |
| Broker.MemoryPubSub.ListOccupiedChannels | internal/pubsub/memory.go:174-189 | exactly the application's channels with the prefix and a member, each once |
| Broker.MemoryPubSub.Close | internal/pubsub/memory.go:191-204 | closes every subscription and forgets them |
| SubscriptionQueue.SubscriptionDelivers | internal/pubsub/memory.go:68-87 | what was received and queued is an in-order subsequence of what was published while open, and all of it iff the queue was never full |
| SubscriptionQueue.NothingAfterClose | internal/pubsub/memory.go:30-39 | nothing enters the queue after close |
| SubscriptionQueue.DroppedCounted | internal/pubsub/memory.go:77-81 | never more is accepted than was published while open, and as much iff no wanted message met a full queue |
| SubscriptionQueue.OneMoreEvent | internal/pubsub/memory.go:17-87 | each event of a history does to the subscription what the broker's methods do |
| SubscriptionQueue.ReadsDrain | internal/pubsub/memory.go:17-19 | whatever was accepted can be read, oldest first, also after close |
| Presence.UsersBounded | internal/pubsub/memory.go:160-163 | users never outnumber sockets, and are as many iff no user has two |
| Presence.AddKeepsCache | internal/pubsub/memory.go:115-120 | adding keeps `occupancies` exact |
| Presence.RemoveKeepsCache | internal/pubsub/memory.go:139-144 | so does removing |
| Presence.MemoryStepRefines | internal/pubsub/memory.go:107-147 | each memory operation does to the abstract rosters what it should, and reports the same user |
| Presence.RedisStepRefines | internal/pubsub/redis.go:96-143 | so does each Redis operation |
| Presence.RunsRefine | internal/pubsub/redis.go:96-143 | both layouts represent one abstract table after any sequence of operations |
| Presence.MemoryOccupiedExact | internal/pubsub/memory.go:174-189 | the listed channels are the occupied ones with the prefix |
| Presence.LayoutsAgree | internal/pubsub/redis.go:145-185 | occupancy, roster, occupied channels and the next removed user are the same in both layouts |
| RedisBroker.RedisPubSub.AddPresenceMember | internal/pubsub/redis.go:96-113 | the hash and the occupied set after the pipeline |
| RedisBroker.RedisPubSub.RemovePresenceMember | internal/pubsub/redis.go:115-143 | their state after a removal, and the user ID |
| RedisBroker.RedisPubSub.GetPresenceMembers | internal/pubsub/redis.go:145-160 | exactly the hash's users, each with the info of one of its sockets |
| RedisBroker.RedisPubSub.GetChannelOccupancy | internal/pubsub/redis.go:162-169 | the size of the abstract roster that the data represents, and not zero iff the channel is among the occupied ones |
| RedisBroker.RedisPubSub.ListOccupiedChannels | internal/pubsub/redis.go:171-185 | the occupied set's channels with the prefix, each once |
| RateLimit.Limiter.Allow | internal/ratelimit/ratelimit.go:25-45 | tokens grow by the rate times the time since the last call, up to capacity; then one is spent if there is one |
| RateLimit.LevelIsLeast | internal/ratelimit/ratelimit.go:33-37 | the refilled count is the least of all windows, for any clock |
| RateLimit.ClosedForm | internal/ratelimit/ratelimit.go:25-45 | at call j the count is the minimum over i of capacity plus rate times the time since call i, less the grants since |
| RateLimit.DeniedIff | internal/ratelimit/ratelimit.go:39-44 | a call is denied iff for some earlier or equal call i the grants since i and this one exceed capacity plus rate times the time since |
| RateLimit.BurstIsGranted | internal/ratelimit/ratelimit.go:16-23 | the first calls are granted, up to the capacity |
| RateLimit.LimiterConforms | internal/ratelimit/ratelimit.go:25-45 | no window of calls is ever granted more than capacity plus refill |
| RateLimit.LimiterIsOptimal | internal/ratelimit/ratelimit.go:25-45 | no decider that conforms ever grants more up to any call |
| KeyedRateLimit.KeyedLimiter.Allow | internal/ratelimit/ratelimit.go:62-78 | a new key gets a bucket with `capacity` tokens; the call is decided on its key's bucket and changes no other |
| KeyedRateLimit.AloneIsAllow | internal/ratelimit/ratelimit.go:62-78 | the interleaved sections of one caller, run with nobody in between, do to the buckets what `KeyedLimiter.Allow` does |
| KeyedRateLimit.KnownIsHeld | internal/ratelimit/ratelimit.go:63-66 | a known key has its limiter after the read-locked lookup; the creation section changes nothing |
| KeyedRateLimit.StepKeepsInv | internal/ratelimit/ratelimit.go:67-75 | no interleaving makes a second bucket for a key or changes another key's |
| KeyedRateLimit.KeyDecisionsArePrivate | internal/ratelimit/ratelimit.go:62-78 | a key's calls are decided as by one private limiter, full from the start |
| KeyedRateLimit.KeyConforms | internal/ratelimit/ratelimit.go:62-78 | so no window of one key's calls exceeds its allowance |
| KeyedRateLimit.LateIsFull | internal/ratelimit/ratelimit.go:67-75 | a bucket created late decides as if it had been full from the start |
| History.ChannelHistory.SaveChannelMessage | internal/store/memory.go:360-377 | the log grows by the message with the next ID; buffers stay the ends of its channels |
| History.ChannelHistory.GetChannelHistory | internal/store/memory.go:379-407 | one channel: the last messages of its log, IDs increasing; a whole application: an answer that some order of tied messages gives, and where no tie reaches into it the last kept messages, or for a limit up to 1000 the last of the log |
| History.ChannelHistory.AppBuffers | internal/store/memory.go:388-393 | merging in any map order gathers exactly the kept messages |
| History.SortByTime | internal/store/memory.go:394-396 | a time-sorted permutation, nothing promised about ties |
| History.KeptSuffixIff | internal/store/memory.go:370-406 | the merged answer is the log's suffix iff no channel has over 1000 messages in it |
| History.KeptIsBuffered | internal/store/memory.go:370-375 | a message is in the merged answer iff it is in its channel's truncated buffer |
| History.LongLimitFallsShort | internal/store/memory.go:370-373 | a limit of 1001 can miss a message |
| History.TiesHarmlessIff | internal/store/memory.go:394-406 | every sorted order has the same end iff each message of that end is later than all before it |
| History.AnswerIsLogEndIff | internal/store/memory.go:379-407 | every possible answer for an application is the end of its log iff no channel has over 1000 messages there and each kept message asked for is later than all before it |
| History.EndIsLaterIff | internal/store/memory.go:394-396 | with a clock that never goes back it is enough that neighbours there differ |
| History.StrictClock | internal/store/memory.go:365 | a clock that always advances has no harmful tie |
| History.TiesReorder | internal/store/memory.go:379-407 | with two messages of one time the answer for a limit of 1 may be either |
| AppIndex.AppStore.CreateApp | internal/store/memory.go:88-103 | both indexes then give the application with the current time as both its times; or AlreadyExists and no change |
| AppIndex.AppStore.UpdateApp | internal/store/memory.go:140-153 | both indexes then give the new record, with the time of creation kept; or NotFound and no change |
| AppIndex.AppStore.DeleteApp | internal/store/memory.go:155-166 | the ID and the stored record's key are gone; or NotFound and no change |
| AppIndex.AppStore.GetAppByID | internal/store/memory.go:105-114 | the application with that ID, if there is one |
| AppIndex.AppStore.GetAppByKey | internal/store/memory.go:116-125 | the key index's application, if there is one; where the indexes agree the one application with that key |
| AppIndex.AgreeIsScan | internal/store/memory.go:116-125 | in agreement a key lookup is a scan of `apps`, and keys are unique |
| AppIndex.UpdateKeepsAgreementIff | internal/store/memory.go:140-153 | an update keeps the agreement iff it keeps the key |
| AppIndex.RunAgrees | internal/store/memory.go:88-166 | the indexes agree after every run whose updates keep the key |
| AppIndex.RunAgreesIff | internal/store/memory.go:88-166 | they agree all along a run iff every update in it keeps its key |
| AppIndex.MovedKeyOutlives | internal/store/memory.go:140-166 | an update that moves the key leaves the old key with the old record, even after the application is deleted |
| AppIndex.StoredIff | internal/store/memory.go:88-166 | after any run an application is stored iff some creation succeeded and no deletion came after |
| AppIndex.StoredIsLatest | internal/store/memory.go:88-153 | it then has the time of that creation, and everything else from the last update since, if there is one |
| RequestSigning.ChannelStringIff | internal/auth/pusher_auth.go:27-32 | for socket IDs without colons, two signed strings agree iff the sockets do and the channel names followed by their data do |
| RequestSigning.DataReadsAsChannel | internal/auth/pusher_auth.go:27-46 | so an auth string for a channel with data is also one for the channel whose name goes on with that data |
| RequestSigning.ChannelStringInjective | internal/auth/pusher_auth.go:27-32 | where channel names have no colons the string determines socket, channel and data |
| RequestSigning.HexInjective | internal/auth/pusher_auth.go:36 | the hex text determines the digest |
| RequestSigning.AuthVerifiesIff | internal/auth/pusher_auth.go:26-46 | an auth string made under one key, secret, socket and name verifies under another iff the keys are equal and the digests are |
| RequestSigning.AuthIsOwnIff | internal/auth/pusher_auth.go:26-46 | where no digests collide: iff application key, secret, socket and channel name followed by its data are equal |
| RequestSigning.BuildRESTStringToSign | internal/auth/pusher_auth.go:74-92 | whatever order the map is read in, the result is the one canonical string |
| RequestSigning.KeyOrderUnique | internal/auth/pusher_auth.go:75-82 | there is one sorted duplicate-free order of the keys |
| RequestSigning.UpperIff | internal/auth/pusher_auth.go:91 | methods are signed alike iff they differ in the case of letters only |
| RequestSigning.OnlyFirstSigned | internal/auth/pusher_auth.go:84-89 | of a parameter with several values only the first is signed |
| RequestSigning.SignatureNotSigned | internal/auth/pusher_auth.go:77-79 | the string does not depend on `auth_signature` |
| RequestSigning.ParseBackIff | internal/auth/pusher_auth.go:84-91 | method, path and first values can be read back iff they contain no separator |
| RequestSigning.StringToSignInjective | internal/auth/pusher_auth.go:84-91 | separator-free requests that differ never share a string to sign |
| RequestSigning.SignRESTRequest | internal/auth/pusher_auth.go:48-71 | the signature is the hex digest, under the secret, of the canonical string of the parameters that are sent; these are the caller's with key, time, version, the body's MD5 and the signature |
| RequestSigning.VerifyRESTRequest | internal/auth/pusher_auth.go:95-142 | each verdict, iff its check is the first to fail: key, time within `maxAge`, body, hex digest of the canonical string under the secret; else accepted |
| RequestSigning.AgeIff | internal/auth/pusher_auth.go:113-116 | the age is within a duration iff the two times are, up to the largest duration |
| RequestSigning.SignedIsAcceptedIff | internal/auth/pusher_auth.go:48-142 | a signed request is accepted iff it names a key, its time is within `maxAge`, and the verifier's secret gives the same digest for what the query string carried |
| RequestSigning.CarriedIff | internal/auth/pusher_auth.go:83-91 | a request is signed alike before and after it was carried iff none of its signed parameters is without values |
| RequestSigning.SignedUnderSecretIff | internal/auth/pusher_auth.go:48-142 | so where no digests collide it is accepted iff it names a key, is timely, was signed under the verifier's secret and has no signed parameter without values |
| RequestSigning.SignatureIsOwnIff | internal/auth/pusher_auth.go:123-139 | where no digests collide a request with a signature made for another one passes the signature check iff secret and canonical string are the same |
| RequestSigning.SignedPartIsKept | internal/auth/pusher_auth.go:74-139 | so of separator-free requests it passes only with the signed method, path and first values |
| Text.FormatParses | internal/auth/pusher_auth.go:108 | a 64-bit timestamp survives formatting and parsing |
| Text.LessIff | internal/auth/pusher_auth.go:82 | in the order of the sorted keys a proper prefix comes first, and otherwise the first character that differs decides |
| Text.ParseIntIff | internal/auth/pusher_auth.go:108-111 | a timestamp parses as a number iff it is that number in 64-bit range, possibly after a sign and zeros |

## Left out

- HTTP routing, middleware, WebSocket reads and writes, timeouts and JSON decoding; the models start from decoded requests, and a request that cannot be decoded changes nothing but an error frame.
- `internal/store/postgres.go` and the Redis transport: from Redis only the presence data layout is modelled, command by command.
- AES-GCM, bcrypt, JWT and UUIDs: the model's credentials hold the decrypted secret.
- `internal/beams`, `internal/webhook` and the dashboard: delivery of a webhook is the notification recorded by the hub.
- The history record that `BroadcastCluster` writes before it fans out: the store is modelled on its own in `History`.
- `LocalFrames` and `LocalEvents` relate whole operations and whole fan-outs; that `Fanout`'s frames under interleaving are those of the connections' channels is not shown.
- Webhooks `member_added`, `member_removed` and `client_event`: `HubEffects` and `HandleClientEvent` say when one operation notifies them, but no theorem over runs speaks of them.
- Deadlock freedom of the memory broker: each broker method is one atomic step.
- Rosters and webhooks under interleaving inside one operation: the snapshot, the enqueueing and the occupancy check are separate unlocked steps there, so these theorems are for whole operations; the rosters of other hubs also assume that what an operation publishes arrives before the next one.
- An event that a server publishes under an internal name such as `pusher_internal:member_added` is not taken for a presence message.
- That every `"*"` subscriber of another hub gets an event: a hub forwards it to them only if it has also recorded a subscription to that channel, as `FanoutTheorems.RemoteExactlyOnce` requires.
- The order of broadcasts of a connection's own hub, of different channels, or from before and after its hub closed and reopened a channel's subscription: different goroutines send them, in any order.
- Pointers: a `*Client` is its hub, application and socket ID, and `LocalHub.Hub.conns` maps it to the connection object; stored `*App` and `*ChannelMessage` records are values, so later changes through a shared pointer are not captured.
- Users, API keys, devices, webhooks and deliveries of the memory store: keyed maps that would only add simple members.
- SocketIDs.Generator.GenerateSocketID: does not model two processes; that their IDs differ is left to the random part and assumed where it matters.
- RateLimit.ClosedForm: does not model floating-point rounding; token counts are real numbers.
- RequestSigning.Upper: maps ASCII letters only.
- RequestSigning.VerifyRESTRequest: does not model the wrap-around of `time.Unix` for seconds near the 64-bit limits.
- `SignWebhook` and `VerifyWebhook`: one keyed hash and its comparison.
