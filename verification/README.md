# Alera: relay, delivery, quota and sessions, verified

A Dafny model of the concurrent parts of Alera's edge relay and cloud service, and proofs
about every run of them. `dafny verify dfyconfig.toml` checks the whole project.

Each subsystem has the same layers. A model file gives the state and one function for each
atomic step. Safety files prove what every run of those steps keeps. A class file holds the
same state in mutable fields, with methods written as the source writes them (loops
included), each proved to be the corresponding step and to keep the subsystem's invariant.

| files | subsystem |
|---|---|
| `RelayFrame`, `RelayModel`, `RelayInvariant`, `RelayRouting`, `RelayNotices`, `RelayRenewal`, `RelayLimits`, `RelayCapExample`, `RelayObject` | the per-runtime relay object: admission and replacement, routing, disconnect notices, renewal across an await, readiness, ingress limit, mobile cap |
| `SigningKeyCache` | the relay's cache of signing keys |
| `EventModel`, `EventInvariant`, `EventDelivery`, `EventRetention`, `EventStale`, `EventExpiry`, `EventReplay`, `EventStore`, `SecretRotation`, `Cursor`, `Ingest`, `IngestStore` | webhook and MCP Events: intake, fan-out, leased delivery, retry, expiry, replay from a cursor, rotation of signing secrets |
| `Quota`, `PushModel`, `PushDelivery`, `PushRace`, `PushStore`, `BoundedDelivery`, `FcmRetry` | push delivery claims and their races, quota windows, bounded concurrency, retries |
| `SessionModel`, `SessionSafety`, `SessionStore`, `DeviceSignIn`, `DeviceStore`, `UserCode` | refresh-token families (rotation with replay detection, section 4.14.2 of RFC 9700), clean-up, device sign-in (section 3.5 of RFC 8628) |
| `Configuration`, `ConfigurationStore`, `FixedWindow` | optimistic configuration publishing and the fixed-window request limit |

## What a step is

- Relay: one JavaScript turn, that is everything between two awaits. The clock does not move
  inside a turn. Which `send` calls throw, what a control frame's JSON says and what grant
  verification answers are parameters of the step, so results hold for all of them.
- Cloud: one SQL statement, or one transaction that holds its row lock. Workers may run any
  statement at any time. Clock readings, new ids and replies of other services are parameters.
- Signing keys: one turn of the fetch and of each caller waiting for it.

Assumptions about the relay's surroundings (`RelayInvariant.Legal`): a runtime-role grant has
`clientId == runtimeId`, as cloud/src/relay.rs issues it; one `jti` names one grant; the grant
of a connection names the object's runtime id, as the routing in edge/src/index.ts ensures,
while a renewal may present any grant the cloud has signed, for whatever runtime; an
unsuppressed socket leaves the peer list only through its close or error handler; time does
not go back.

Assumptions about MCP Events subscriptions (`EventModel.Requested`, `EventModel.GrantsGrow`): no two
requests share a subscription id by a collision of the hash, so a request that meets a stored id has
the same grant, kind and arguments; what a grant covers is written once and its revocation is
final, as cloud/src/mcp_oauth/grants.rs:58-131 writes them.

## Where the code does less than one might expect

Each of these is a lemma with a concrete run or input, beside the exact condition under which
the expected property does hold.

- The cap of eight mobiles can be passed, because an admission that finds any socket of the
  same client, even a suppressed or expired one, skips the count (`RelayCapExample.CapCanBePassed`,
  `RelayLimits.AdmissionMeetsCap`, `RelayLimits.NeverMoreThanEightMobiles`).
- A mobile that was made ready can be made to wait again, only by a renewal that began before
  (`RelayRenewal.ReadinessCanBeLost`, `RelayRenewal.ReadinessLostOnlyToOlderRenewal`).
- A ready or close command for an older connection reaches a newer one exactly when both were
  opened with the same grant (`RelayRenewal.OlderCloseCanReachNewer`,
  `RelayRenewal.OlderCommandReachesNewer`).
- The notice that a mobile has gone is sent by tag, and a socket is tagged with its client id too.
  So it also reaches a mobile whose client id is "runtime" (`RelayNotices.NamesakeIsTold`,
  `RelayNotices.NoticeReachesIff`).
- The delivery fence is the attempt number that the SELECT after the claim reads. A worker
  reclaimed between the two statements shares the fence of its successor
  (`EventDelivery.LateLoadSharesTheFence`, `EventDelivery.SettlesIffNotReclaimed`).
- The fence covers the delivery row only. A worker that lost its row still ends the subscription
  when its reply was a 410, or its snapshot past the refresh date or unauthorized
  (`EventStale.StaleGoneStopsTheWebhook`, `EventStale.StaleWorkerWritesIff`).
- The stop of a subscription does not check the stored refresh date again. A worker that planned
  an expiry ends the subscription although a refresh has moved the date
  (`EventExpiry.StopEndsARefreshedSubscription`, `EventExpiry.EndsEarlyIff`,
  `EventExpiry.RefreshLasts`).
- A cursor is taken from rows only. A refresh from it passes over an older event of the subscription
  that had no row when it was issued. A cursor is complete exactly if there is no such event; an
  event counts if it is of the account and the kinds, passes the filter and is of a runtime that
  the grant reaches, for those parts of a match no later step can bring back
  (`EventReplay.EventCanBePassedOver`, `EventReplay.CursorIsCompleteIff`).
- The limit of 12 attempts binds pending rows only. Leases that run out unsettled take a row past
  it, at 45 s for each attempt (`EventStale.AttemptsCanPassTheLimit`,
  `EventStale.LostLeasesCostTime`).
- A subscribe request reads the stored secret in one statement and writes in another. Two such
  requests that cross can drop a verified secret without its five minutes of overlap, and let a
  later refresh reuse the verification of another secret
  (`SecretRotation.CrossedRequestsLoseASecret`, `SecretRotation.ReplacedSecretSignsIff`,
  `SecretRotation.WritesAreFreshlyVerified`, `SecretRotation.WriteMisleadsIff`).
- A refresh that cannot decrypt the stored secret ends the overlap of the secret before it at once
  (`SecretRotation.UnreadableRefreshEndsOverlap`, `SecretRotation.RotationOverlaps`).
- The push claim statement reads its snapshot before it locks a row. It adds a second row for
  a pair exactly when the pair was finished in between under an attempt number other than one
  (`PushDelivery.RacedClaimCanDuplicate`, `PushDelivery.RacedClaimDuplicatesIff`). Each such write can
  cost one more unit of quota and one more finalization, and nothing else can
  (`PushRace.RaceCanChargeTwice`, `PushRace.RacesAreCounted`, `PushRace.DuplicatesIff`). In
  `PushRace` claims read any earlier state; the other results about push delivery take the
  statement as atomic.
- A batch sent again can be accepted for events that were too far in the future the first time,
  and for events that clean-up has deleted since (`Ingest.ResendCanAccept`,
  `Ingest.ResendAfterCleanUp`, `Ingest.ResendAcceptsNothingIff`, `Ingest.ResendAfterRun`).
- An operation id can be applied again exactly when its last application is more than a hundred
  revisions back; the old request then meets an operation conflict
  (`Configuration.OperationCanBeReused`, `Configuration.ReusableIff`).

One check turns out to be redundant: the `jti` comparison after grant verification can never
fail, because nothing else rewrites a socket's claims while a renewal waits
(`RelayRenewal.RenewalIsSafe`).

## Model

| member | source | states |
|---|---|---|
| `RelayFrame.FrameRoundTrip` | edge/src/index.ts:202-215 | a frame with a client id and a payload reads back as that id exactly when the id is valid UTF-8 of an allowed length and the payload is not empty, and is refused otherwise |
| `RelayFrame.DisconnectFrameIsNotData` | edge/src/index.ts:217-220 | a disconnect frame carries no payload, so it never reads as a data frame, and it names its client |
| `RelayInvariant.RunKeeps` | edge/src/runtime_relay.ts:59-125 | in every legal run: one unsuppressed socket for each role and client, all of them listed; every unsuppressed mobile has an unsuppressed runtime of its account and runtime id; pending renewals still match their socket |
| `RelayInvariant.StepKeeps` | edge/src/runtime_relay.ts:133-362 | one turn keeps that invariant; identity and connection never change, suppression is never undone, expiry never moves back |
| `RelayRouting.DataReachesOnlyItsAddressee` | edge/src/runtime_relay.ts:193-230 | in every run a turn sends data to at most one socket, the live, ready, unexpired one that sender and header name, with the bytes unchanged; a frame that passes the checks does reach it |
| `RelayRouting.AddresseeIsUnique` | edge/src/runtime_relay.ts:208-230 | no frame has two addressees |
| `RelayRouting.OnlyForwardingSendsData` | edge/src/runtime_relay.ts:133-231 | nothing but the forwarding loop sends data |
| `RelayRouting.NoticeComesFrom` | edge/src/runtime_relay.ts:78-102 | a disconnect notice comes only from a connection or disconnection of the mobile client it names |
| `RelayRouting.NoticeMeansGone` | edge/src/runtime_relay.ts:343-377 | after a turn that sends a notice, none of that client's previously live sockets is live |
| `RelayRouting.DepartureIsAnnounced` | edge/src/runtime_relay.ts:353-377 | a live mobile that disconnects is announced to its live runtime |
| `RelayNotices.NoticeReachesIff` | edge/src/runtime_relay.ts:364-377 | in every run a notice that a client has gone is sent to a socket if and only if a mobile of that client leaves or is replaced and the socket, of the same account and runtime and not suppressed by then, is a runtime or has the client id "runtime" |
| `RelayNotices.ReplacementReaches` | edge/src/runtime_relay.ts:78-102 | whom a replacement tells, duplicate by duplicate: every tagged socket that none of the replacements so far has suppressed, which may be a duplicate that is replaced later |
| `RelayNotices.StrayNoticeHasTheName` | edge/src/runtime_relay.ts:115 | a notice that reaches a socket that is no runtime reaches a live mobile with the client id "runtime" |
| `RelayNotices.NamesakeIsTold` | edge/src/runtime_relay.ts:364-377 | a run with a mobile of that client id, which is told that another mobile has left |
| `RelayRenewal.SocketsOnlyEvolve` | edge/src/runtime_relay.ts:233-319 | over any continuation, through any renewals: no revival, same identity and connection, no earlier expiry |
| `RelayRenewal.ReplacedSocketIsSilent` | edge/src/runtime_relay.ts:353-362 | in every run, whatever happens after a socket was displaced by a connection, its close or error changes nothing and emits nothing |
| `RelayRenewal.RenewalIsSafe` | edge/src/runtime_relay.ts:265-294 | whatever ran during verification: only its own socket changes, only if neither suppressed nor expired, keeping identity, connection and counted ingress; another grant only if it expires later |
| `RelayRenewal.RenewalTakesEffect` | edge/src/runtime_relay.ts:273-301 | an acceptable grant on a live unexpired socket is installed and acknowledged, any other is answered with an error |
| `RelayRenewal.AdmissionStartsAwaiting` | edge/src/runtime_relay.ts:116-125 | a mobile waits from admission exactly when both sides speak the control protocol |
| `RelayRenewal.NoRuntimeFrameBeforeReady` | edge/src/runtime_relay.ts:139-216 | until a `peer.ready` for its own connection is processed, that is obeyed from a live control-speaking runtime of its own account and runtime id, a waiting mobile stays waiting and gets no runtime frame, over any continuation; the same command forged by the mobile or sent by any other socket changes nothing |
| `RelayRenewal.ReadyIffNamed` | edge/src/runtime_relay.ts:150-171 | in every run a turn makes a waiting socket ready if and only if it processes a `peer.ready` for that socket |
| `RelayRenewal.ReadinessAfterRenewal` | edge/src/runtime_relay.ts:287-294 | an accepted renewal leaves a socket waiting if and only if it waited when the renewal began |
| `RelayRenewal.ReadinessLostOnlyToOlderRenewal` | edge/src/runtime_relay.ts:165-170 | over any continuation, a ready socket waits again only if a renewal that began while it waited was still in flight when it was ready |
| `RelayRenewal.ReadinessCanBeLost` | edge/src/runtime_relay.ts:287-294 | a run from the start in which a mobile is ready after the fourth turn and waits after the fifth |
| `RelayRenewal.CommandTouchesOnlyItsConnection` | edge/src/runtime_relay.ts:150-185 | a command changes a socket only if it is obeyed, from a live runtime that speaks the control protocol, and the socket is a live mobile of that runtime whose client and connection it names |
| `RelayRenewal.ConnectionIsTheOpeningGrant` | edge/src/runtime_relay.ts:116-119 | through any renewals a socket answers to the `jti` it was opened with |
| `RelayRenewal.OlderCommandReachesNewer` | edge/src/runtime_relay.ts:157-164 | for two connections of one mobile client with anything between and after: a command that names the older one targets the newer one if and only if both were opened with one `jti` |
| `RelayRenewal.OlderCloseCanReachNewer` | edge/src/runtime_relay.ts:157-181 | a run in which the close of a first connection ends the second |
| `RelayLimits.WindowMovesOnlyByIngress` | edge/src/runtime_relay.ts:321-341 | only an admitted frame of its own moves a socket's ingress window; renewals leave it alone |
| `RelayLimits.IngressIsBounded` | edge/src/runtime_relay.ts:321-341 | in every run, bytes admitted from a socket in the T ms after its first frame are at most 16 MiB times (T / 1000 + 1) |
| `RelayLimits.SocketsExpireSoon` | edge/src/relay_authorization.ts:234-267 | with verified grants a socket never expires more than 150 s after the last turn |
| `RelayLimits.AdmissionMeetsCap` | edge/src/runtime_relay.ts:75-112 | an admission keeps the cap of eight if and only if fewer than eight are live, or it replaces a live socket, or the new grant is already expired |
| `RelayLimits.NeverMoreThanEightMobiles` | edge/src/runtime_relay.ts:59-125 | along every run whose admissions find only live sockets of the same client, never more than eight live mobiles |
| `RelayCapExample.CapCanBePassed` | edge/src/runtime_relay.ts:75-112 | for every n up to 100 a run reaches n live mobiles |
| `RelayObject.RuntimeRelay.Fetch` | edge/src/runtime_relay.ts:53-130 | the loops of admission and replacement have exactly the effect and messages of the connection step, and keep the relay's invariant |
| `RelayObject.RuntimeRelay.ReplaceDuplicates` | edge/src/runtime_relay.ts:78-102 | replacing peer by peer suppresses exactly the duplicates and the mobiles of a replaced runtime, with one notice or close for each |
| `RelayObject.RuntimeRelay.NotifyRuntimeOfMobileDisconnect` | edge/src/runtime_relay.ts:364-377 | every unsuppressed socket of the mobile's account and runtime with the tag 'runtime', by role or by client id, is sent its notice, in peer order |
| `RelayObject.RuntimeRelay.DisconnectMobilesForRuntime` | edge/src/runtime_relay.ts:379-393 | every listed mobile of the runtime is suppressed and closed |
| `RelayObject.RuntimeRelay.AdmitIngress` | edge/src/runtime_relay.ts:321-341 | the stored window becomes the admitted one, or the socket is closed with 1013 and nothing is counted |
| `RelayObject.RuntimeRelay.ObeyCommand` | edge/src/runtime_relay.ts:155-184 | the loop readies or closes exactly the named connections |
| `RelayObject.RuntimeRelay.ForwardFrame` | edge/src/runtime_relay.ts:208-230 | the loop emits exactly the forwarded frame and the closes of expired peers |
| `RelayObject.RuntimeRelay.WebSocketMessage` | edge/src/runtime_relay.ts:133-231 | a message has exactly the effect of the message step, the hand-over of a runtime's MCP frame included, and keeps the relay's invariant |
| `RelayObject.RuntimeRelay.BeginRenewal` | edge/src/runtime_relay.ts:238-262 | a renewal is recorded once, or refused with the right close code |
| `RelayObject.RuntimeRelay.FinishRenewal` | edge/src/runtime_relay.ts:265-318 | the part after the await has exactly the effect of the verdict step, and keeps the relay's invariant |
| `RelayObject.RuntimeRelay.HandlePeerDisconnectOnce` | edge/src/runtime_relay.ts:353-362 | a close or error has exactly the effect of the disconnection step, and keeps the relay's invariant |
| `SigningKeyCache.CacheLaws` | edge/src/relay_authorization.ts:49-117 | in every trace: a caller's keys come from the very fetch that its own lookup started or found pending, or from one finished under 60 s before its answer; no fetch starts within 1 s of a failure; unknown-key refreshes are 5 s apart |
| `SigningKeyCache.AtMostOneInFlight` | edge/src/relay_authorization.ts:59-69 | at most one fetch is in flight |
| `SigningKeyCache.LookupAnswers` | edge/src/relay_authorization.ts:57-70 | when a lookup is answered from the cache and when it starts a fetch, both exactly |
| `SigningKeyCache.KeyCache.SigningKeys` | edge/src/relay_authorization.ts:49-70 | keeps the laws; keys returned at once are under a minute old, a waiting caller is on the pending fetch, and a fetch starts exactly when nothing stands in its way |
| `SigningKeyCache.KeyCache.Complete` | edge/src/relay_authorization.ts:98-105 | keeps the laws; for a minute and no longer every lookup of a delivered key is served |
| `SigningKeyCache.KeyCache.Conclude` | edge/src/relay_authorization.ts:107-116 | keeps the laws; afterwards no fetch is pending, and after a failure none starts for a second |
| `Cursor.CursorRoundTrip` | cloud/src/events/cursor.rs:16-33 | a cursor decodes to the last whole millisecond not after the encoded time, and is refused exactly when that is over a minute in the future |
| `EventInvariant.RunKeeps` | cloud/src/events/fanout.rs:52-127 | in every run: one delivery row for each subscription and event, pending rows under 12 attempts, planned statements sound |
| `EventInvariant.RowMoves` | cloud/src/events/delivery.rs:127-156 | a row changes only by a claim, the settlement of its holder, the stop of its subscription or a refresh, and then exactly so |
| `EventDelivery.RetryDelayDoubles` | cloud/src/events/delivery.rs:32-37 | 5 s, doubling to 15 minutes, and never outside that range for any attempt number |
| `EventDelivery.FinalForEver` | cloud/src/events/delivery.rs:393-421 | a delivered or dead row never changes while it exists |
| `EventDelivery.ClaimsAreALeaseApart` | cloud/src/events/delivery.rs:127-156 | two claims of a row without a settlement between are at least 45 s apart |
| `EventDelivery.AttemptsCountClaims` | cloud/src/events/delivery.rs:142-146 | within one retry budget the attempt number counts the claims |
| `EventDelivery.SettlesIffNotReclaimed` | cloud/src/events/delivery.rs:402-409 | within one retry budget a loaded snapshot can still settle its row if and only if the row is sending and nobody claimed it since the load |
| `EventStale.StaleWorkerWritesIff` | cloud/src/events/delivery.rs:246-343 | in every run, a statement of a worker whose row was claimed again within one retry budget changes a row or a subscription if and only if it is the stop of a plan made for a 410, a passed refresh date or a lost authorization, and there is something left to stop |
| `EventStale.StaleGoneStopsTheWebhook` | cloud/src/events/delivery.rs:326-343 | a run in which a worker that lost its row ends the active webhook whose row another worker holds |
| `EventStale.LostLeasesCostTime` | cloud/src/events/delivery.rs:127-156 | within one retry budget, from 12 attempts on, a row gains attempts only while it is being sent, its lease moves by at least 45 s for each, and it is never pending again |
| `EventStale.AttemptsCanPassTheLimit` | cloud/src/events/delivery.rs:127-156 | for every n a run reaches a row with n attempts, exactly 45 s apart |
| `EventDelivery.LateLoadSharesTheFence` | cloud/src/events/delivery.rs:127-189 | from any due row, a reclaim between claim and load leaves two workers holding it |
| `EventRetention.ReplySettlesRow` | cloud/src/events/delivery.rs:51-61 | from a reply to the row: delivered exactly for 2xx, stopped with its subscription exactly for 410, queued again exactly for a transient reply while attempts and retention allow, at the backed-off time, else dead |
| `EventRetention.PendingIsDueInRetention` | cloud/src/events/delivery.rs:356-380 | in every run of any workers a pending delivery is due no later than its event is retained |
| `EventDelivery.CursorIsBeforeWaitingRows` | cloud/src/events/delivery.rs:176-179 | a sent cursor decodes to a time no later than the receive time of every row then waiting for that subscription |
| `EventDelivery.OriginStays` | cloud/src/events/fanout.rs:52-127 | a row keeps its subscription, its event and the receive time of its event |
| `EventDelivery.RefreshResumesStoppedRows` | cloud/src/events/mcp_subscriptions.rs:193-201 | refreshing from a cursor requeues every then-waiting row that was stopped for expiry and is retained and still matches |
| `EventDelivery.RefreshIsCompleteAndIdempotent` | cloud/src/events/fanout.rs:96-127 | after a refresh every wanted event has a row not stopped for expiry, no other row changed, and a second refresh does nothing |
| `EventReplay.RecoversIff` | cloud/src/events/fanout.rs:96-127 | a refresh leaves every retained matching event handled if and only if those before its cursor were handled already |
| `EventReplay.CursorIsCompleteIff` | cloud/src/events/delivery.rs:176-179 | in every run, for an MCP Events subscription: each later refresh from a sent cursor, after any steps that keep the subscription, leaves every retained matching event handled, if and only if at the load every retained earlier event that is of the subscription's account and kinds, passes its filter and is of a runtime that its unrevoked grant reaches had a row not stopped for expiry |
| `EventReplay.SubContinues` | cloud/src/events/mcp_subscriptions.rs:101-114 | whatever happens but its deletion, a subscription keeps its account, kind, grant and filter and whether it covers all runtimes; a grant keeps what it covers, and its revocation is not undone |
| `EventReplay.ReachableOwned` | cloud/migrations/0025_domain_events.sql:45-46 | in every run every MCP Events subscription has its grant |
| `EventReplay.EventCanBePassedOver` | cloud/src/events/fanout.rs:52-127 | a run in which an event fanned out after the expiry gets no row and the refresh from the cursor passes it over |
| `EventExpiry.RefreshLasts` | cloud/src/events/mcp_subscriptions.rs:227-273 | in every run a subscription refreshed with a date between a minute and a day ahead, and not dated again, is found inactive only if a worker's stop ended it, decided at or after that date, on a 410, on a lost authorization, or on a snapshot loaded before the refresh |
| `EventExpiry.EndsEarlyIff` | cloud/src/events/delivery.rs:221-252 | in every run a worker's statement ends an active subscription whose stored date is after the decision if and only if it is the first of a plan made for a 410, a lost authorization, or a passed date that was written anew since the load |
| `EventExpiry.EndHasAWorker` | cloud/src/events/delivery.rs:437-455 | in every run whatever ends a subscription is the stop of a worker that loaded its row and then decided so |
| `EventExpiry.StopEndsARefreshedSubscription` | cloud/src/events/delivery.rs:225-250 | a run in which a worker that still holds its row ends a subscription just refreshed for a day |
| `EventDelivery.AtMostTwentyWebhooks` | cloud/src/events/webhooks.rs:144-187 | in every run an account has at most 20 webhooks |
| `SecretRotation.SecretsInForce` | cloud/src/events/delivery.rs:192-213 | in every run whose writes find what was stored when their requests looked, decryptable or not: a delivery is signed with the secret written last, and besides only with the one stored before the last rotation, until five minutes after that request |
| `SecretRotation.RotationOverlaps` | cloud/src/events/mcp_subscriptions.rs:213-272 | after a change of secret, through any refreshes and other steps, the new secret always signs, and the old one for exactly five minutes, if and only if no refresh failed to decrypt the row |
| `SecretRotation.ReplacedSecretSignsIff` | cloud/src/events/mcp_subscriptions.rs:206-246 | in any state: a write keeps the secret it replaces for the whole window if and only if its request had found a row and not read its own secret there, or that secret was rotating out anyway and no sooner |
| `SecretRotation.SigningSecretsWereEchoed` | cloud/src/events/mcp_subscriptions.rs:217-226 | in every run, whatever interleaves, each secret that signs was echoed by the callback |
| `SecretRotation.WritesAreFreshlyVerified` | cloud/src/events/mcp_subscriptions.rs:217-226 | in every run whose reusing writes find no row or their own secret stored, a written secret was itself echoed less than five minutes before the request or since |
| `SecretRotation.WriteMisleadsIff` | cloud/src/events/mcp_subscriptions.rs:217-256 | where stamps were good: a write leaves one that lets a later request skip a needed verification if and only if it reused a verification, found another secret with a stamp, and its own secret was not echoed since that stamp |
| `SecretRotation.CrossedRequestsLoseASecret` | cloud/src/events/mcp_subscriptions.rs:206-273 | a run of two crossing requests after which a secret just written signs nothing, and a later refresh writes without an echo of its own secret in the last five minutes |
| `SecretRotation.UnreadableRefreshEndsOverlap` | cloud/src/events/mcp_subscriptions.rs:213-246 | a run in which a refresh that cannot decrypt the row ends the overlap a second after the rotation |
| `SecretRotation.SubscriptionRow.ReadExisting` | cloud/src/events/mcp_subscriptions.rs:206-223 | what a request concludes from the stored row; a reuse means that the same secret is stored |
| `SecretRotation.SubscriptionRow.WriteRow` | cloud/src/events/mcp_subscriptions.rs:234-273 | the new secret signs at once; if nothing came between, the replaced one signs for exactly the window |
| `EventStore.Tables.FanOutPending` | cloud/src/events/fanout.rs:52-89 | inserts one new row for exactly the missing matching pairs, marks the events, and keeps the invariant |
| `EventStore.Tables.ClaimDue` | cloud/src/events/delivery.rs:127-156 | keeps the invariant; the picked rows are being sent, count one more attempt and are not due for 45 s, and no other row changed |
| `EventStore.Tables.FinishDelivery` | cloud/src/events/delivery.rs:393-421 | writes its row if and only if the worker still holds it, and keeps the invariant |
| `EventStore.Tables.StopSubscription` | cloud/src/events/delivery.rs:437-474 | keeps the invariant; nothing of the subscription is left to stop, and no other row or subscription changed |
| `EventStore.Tables.UpsertSubscription` | cloud/src/events/mcp_subscriptions.rs:227-273 | keeps the invariant; the subscription is stored as active with a date between a minute and a day ahead, keeps kind and account, and no other changed |
| `EventStore.Tables.CreateAccountWebhook` | cloud/src/events/webhooks.rs:144-187 | counts the account's webhooks and creates one exactly below the limit, keeping the invariant |
| `EventStore.Tables.QueueTest` | cloud/src/events/webhooks.rs:236-269 | stores the test event with its one row, keeping the invariant |
| `EventStore.Tables.BackfillSubscription` | cloud/src/events/fanout.rs:96-127 | inserts missing rows and requeues exactly those stopped for expiry |
| `EventStore.Tables.DeleteOwned` | cloud/src/events/mcp_subscriptions.rs:307-321 | keeps the invariant; afterwards the owner has no such subscription and no row of it, and nobody else's changed |
| `Ingest.CountsAddUp` | cloud/src/events/ingest.rs:52-88 | accepted plus duplicate plus rejected is the batch size; accepted is the number of valid keys not yet stored |
| `Ingest.BatchKeepsKeysUnique` | cloud/src/events/ingest.rs:142-171 | storing a batch keeps events unique for each runtime and event id |
| `Ingest.RunKeepsKeysUnique` | cloud/src/events/ingest.rs:142-171 | so does every run of intake and delivery |
| `Ingest.OneDeliveryPerEventId` | cloud/src/events/fanout.rs:52-89 | no subscription ever has two delivery rows for one event id of a runtime |
| `Ingest.BatchIsStored` | cloud/src/events/ingest.rs:142-171 | after a batch the stored ids of its runtime are the former ones and its valid ones |
| `Ingest.ResendAcceptsNothingIff` | cloud/src/events/ingest.rs:177-199 | a batch sent again is accepted for nothing if and only if the clock has let in none of its events meanwhile and all that were valid are still stored |
| `Ingest.ResendAfterRun` | cloud/src/maintenance.rs:68-72 | the same after any run: if and only if the clock has let in none, and none that was valid was deleted without being stored again |
| `Ingest.AcceptedStaysADay` | cloud/src/maintenance.rs:68-72 | with the deletions of maintenance, whatever runs for 24 hours after a batch, every event it accepted is still stored |
| `Ingest.ResendAfterCleanUp` | cloud/src/maintenance.rs:68-72 | a run that accepts an event, deletes it by the clause of maintenance, and would accept it again |
| `Ingest.ResendCanAccept` | cloud/src/events/ingest.rs:234-239 | an event ten minutes ahead is rejected, and accepted six minutes later |
| `IngestStore.Intake.ValidateBatch` | cloud/src/events/ingest.rs:177-199 | the loop splits a batch into its valid events and the shortened ids and codes of the others, in order; only an empty or oversized batch fails |
| `IngestStore.Intake.Unique` | cloud/src/events/ingest.rs:68-74 | the set of seen ids keeps exactly the first event of each lower-cased id |
| `IngestStore.Intake.InsertEvents` | cloud/src/events/ingest.rs:102-172 | exactly the events without a stored id get a new row, with the workspace of the envelope or else of the data; ids stay unique |
| `IngestStore.Intake.PostDomainEvents` | cloud/src/events/ingest.rs:43-88 | the whole request: the refusals, the counts, the stored rows, the fan-out after an accepted batch and the number of subscriptions |
| `IngestStore.NewEventsAreQueued` | cloud/src/events/ingest.rs:75-79 | with room in the fan-out batch every accepted event is queued at once for each subscription that matches it |
| `Ingest.MatchesIffCounted` | cloud/src/events/ingest.rs:275-303 | a subscription matches an event if and only if it is counted for the runtime and its kinds and filter agree |
| `Quota.SpendKeepsLimits` | cloud/src/quota.rs:32-85 | with the accepted configuration no counter passes its limit |
| `Quota.RejectedIffFull` | cloud/src/quota.rs:32-85 | a unit is refused if and only if one of the three current windows is full |
| `Quota.SpendKeepsNested` | cloud/src/quota.rs:13-15 | a unit keeps each hour the sum of its 60 minutes and each day the sum of its 24 hours |
| `Quota.SweepKeepsNested` | cloud/src/maintenance.rs:88-99 | clean-up keeps those sums for windows that start after its cutoff |
| `PushDelivery.RunKeeps` | cloud/src/push_delivery.rs:261-343 | in every run: one row for each event and device, open rows at attempt one, no counter past its limit |
| `PushDelivery.ClaimAnswers` | cloud/src/push_delivery.rs:325-343 | a claim that gets nothing finds the pair either held by a live claim or finished, and never both |
| `PushDelivery.StaleClaimIsSilent` | cloud/src/push_delivery.rs:278-293 | after a reclaim every check, reserve, finalize and release under the old id is a no-op, for ever |
| `PushDelivery.TerminalForEver` | cloud/src/push_delivery.rs:393-431 | a finished row is never written again |
| `PushDelivery.AtMostOneFinalization` | cloud/src/push_delivery.rs:393-431 | exactly one finalization of a pair has succeeded once it is finished, none before |
| `PushDelivery.ReclaimsAreALeaseApart` | cloud/src/push_delivery.rs:265-293 | of two successful claims of a pair, with anything between, the second takes over a first that was neither released nor finished only after more than 30 s |
| `PushDelivery.AtMostOneUnit` | cloud/src/quota.rs:17-31 | through any reclaims a pair takes one unit, or none while nothing is reserved for it |
| `PushDelivery.ReservedStaysPaid` | cloud/src/quota.rs:86-96 | once a reservation succeeded the pair stays paid for, so every send is covered |
| `PushDelivery.QuotaMovesOnlyByCharges` | cloud/src/quota.rs:32-97 | counters move exactly when a first reservation succeeds; a refused one changes nothing at all |
| `PushDelivery.WindowsAreConserved` | cloud/src/quota.rs:7-97 | in every run hours are the sums of their minutes and days of their hours, for windows no clean-up has reached |
| `PushDelivery.CountersCountCharges` | cloud/src/quota.rs:68-85 | a minute's counter is the number of reservations charged in it |
| `PushDelivery.RacedClaimDuplicatesIff` | cloud/src/push_delivery.rs:271-313 | for a statement that reads its snapshot in any state of a run and writes in any later one: the pair is left with two rows if and only if what it saw could be claimed (no row, a released or an overdue one) and the pair was meanwhile finished under an attempt number other than one |
| `PushDelivery.RacedClaimCanDuplicate` | cloud/src/push_delivery.rs:271-313 | two runs with a second row: a snapshot before the claim, and one of the overdue claim |
| `PushRace.RacesKeep` | cloud/src/push_delivery.rs:261-343 | in every run in which claims read any earlier state: open rows at attempt one, rows of a pair at different attempt numbers, no counter past its limit |
| `PushRace.OneHolder` | cloud/src/push_delivery.rs:261-293 | even then two current claims are never of one pair |
| `PushRace.RacesAreCounted` | cloud/src/quota.rs:17-31 | even then a pair is charged once for every paid row and finalized once for every ended row, and it has one row and one more for every duplicating write; so units and finalizations are at most one more than those writes |
| `PushRace.WithoutDuplicatesAtMostOnce` | cloud/src/push_delivery.rs:393-431 | a pair whose row is never duplicated is charged exactly once if it is paid for and finalized exactly once if it is finished, and otherwise not at all |
| `PushRace.DuplicatesIff` | cloud/src/push_delivery.rs:271-313 | in every such run a claim adds a row to a pair that has one if and only if what it saw could be claimed and all rows of the pair are by then ended under attempt numbers other than one |
| `PushRace.PromptRuns` | cloud/src/push_delivery.rs:261-324 | runs whose claims read the current state are among these runs and duplicate nothing |
| `PushRace.RaceCanChargeTwice` | cloud/src/push_delivery.rs:271-313 | a run with one duplicating write, two units and two finalizations for one pair |
| `PushStore.Attempts.FindLatest` | cloud/src/push_delivery.rs:272-277 | the newest row of the pair, by attempt and then time |
| `PushStore.Attempts.ClaimDeliveryAttempt` | cloud/src/push_delivery.rs:261-324 | reclaims, inserts or gives nothing, exactly as the claim step; the id is then the current claim of the pair; keeps the invariant |
| `PushStore.Attempts.ReservePushDelivery` | cloud/src/quota.rs:7-97 | three counters and the flag together, or none; a reserved pair is paid for; keeps the invariant |
| `PushStore.Attempts.FinalizeAttempt` | cloud/src/push_delivery.rs:393-431 | reports success if and only if the claim was current; then a pair that was not finished is, with what was reported; else nothing changes; keeps the invariant |
| `PushStore.Attempts.ReleaseClaim` | cloud/src/push_delivery.rs:463-471 | a current claim is given back so that it can be claimed at any time at once; keeps the invariant |
| `BoundedDelivery.RunBoundedDeliveries` | cloud/src/push_delivery.rs:366-391 | for any completion order every task starts in order and finishes once, as scheduled, with its report |
| `BoundedDelivery.NeverMoreThanFour` | cloud/src/push_delivery.rs:372-376 | at no point of a schedule do more than four tasks run |
| `BoundedDelivery.OneReportEach` | cloud/src/push_delivery.rs:378-390 | the reports are, up to order, those of the tasks |
| `FcmRetry.SendWithRetry` | cloud/src/fcm.rs:69-88 | stops at the first answer that may not be retried, after one send for each attempt |
| `FcmRetry.SendWithRetryUntil` | cloud/src/fcm.rs:90-119 | goes on while there is time, and gives the last answer that came in time or a deadline error |
| `FcmRetry.SendsAreBounded` | cloud/src/fcm.rs:90-119 | three sends at most, the retry delay apart, none at or after the deadline |
| `FcmRetry.RetryableOnlyAfterThree` | cloud/src/fcm.rs:105-109 | a retryable error comes back only after exactly three sends |
| `FcmRetry.EarlyAnswersAgree` | cloud/src/fcm.rs:69-119 | the deadline changes nothing when the plain form is answered before it |
| `FcmRetry.LateAnswersAreErrors` | cloud/src/fcm.rs:97-116 | a plain form answered after the deadline becomes a deadline error |
| `SessionSafety.RunKeeps` | cloud/src/auth/sessions.rs:138-351 | in every run the tokens of a family form one chain of replacements with only the tail unused, inactivity expiry is within the absolute one, and the tail expires 30 days after the last use or at the absolute expiry |
| `SessionSafety.OneUnusedToken` | cloud/src/auth/sessions.rs:332-337 | each family has exactly one unused token |
| `SessionSafety.UsableIffLive` | cloud/src/auth/sessions.rs:285-317 | in every run some token of a family would rotate if and only if the family is unrevoked, was used in the last 30 days, is within 365 days and meets its own endpoint |
| `SessionSafety.ChainGrows` | cloud/src/auth/sessions.rs:314-342 | a step leaves a family's chain as it is or adds one token at its end |
| `SessionSafety.RotationSucceedsIff` | cloud/src/auth/sessions.rs:285-317 | a rotation succeeds if and only if the token is usable; the renewal is usable exactly until its own expiry |
| `SessionSafety.ReplayEndsTheFamily` | cloud/src/auth/sessions.rs:290-312 | once a used token is presented on its endpoint, no token of the family rotates again, clean-ups included |
| `SessionSafety.RotatesOnce` | cloud/src/auth/sessions.rs:314-342 | no token rotates twice |
| `SessionSafety.RevocationIsFinal` | cloud/src/auth/sessions.rs:357-393 | a revoked family never rotates again |
| `SessionSafety.CleanUpKeepsUsable` | cloud/src/maintenance.rs:17-35 | clean-up changes no answer a rotation could give at or after its instant |
| `SessionSafety.CleanUpKeepsFamily` | cloud/src/maintenance.rs:17-35 | a family whose tail can still rotate is never deleted |
| `SessionStore.Tables.InsertFamily` | cloud/src/auth/sessions.rs:138-186 | keeps the invariant; the new token rotates on its own kind of endpoint for 30 days, and no answer for another token changes |
| `SessionStore.Tables.RotateFamily` | cloud/src/auth/sessions.rs:249-351 | replaces the token if and only if it is usable, or refuses and revokes the family on replay; keeps the invariant |
| `SessionStore.Tables.RevokeOne` | cloud/src/auth/sessions.rs:379-393 | revokes one family, keeping an earlier revocation; none of its tokens is usable; keeps the invariant |
| `SessionStore.Tables.RevokeClient` | cloud/src/runtimes.rs:89-103 | keeps the invariant; no token of the client is usable, earlier revocations are kept and no other family changed |
| `SessionStore.Tables.CleanUp` | cloud/src/maintenance.rs:17-35 | deletes exactly the stale families and their tokens; changes no answer from its instant on; keeps the invariant |
| `DeviceSignIn.SignedInIffSomeTokenRotates` | cloud/src/device_auth/mod.rs:195-218 | the query holds if and only if some token of the runtime would rotate at that instant |
| `DeviceSignIn.RedemptionNeedsSignedOut` | cloud/src/device_auth/mod.rs:159-186 | a redemption makes a session if and only if no token of the runtime would rotate at its clock reading |
| `DeviceSignIn.SignedInIffLiveFamily` | cloud/src/device_auth/mod.rs:195-218 | in every run the query sees exactly the live families of the runtime: unrevoked, used in the last 30 days, within 365 days |
| `DeviceSignIn.RedeemsIffNoLiveFamily` | cloud/src/device_auth/mod.rs:159-186 | in every run a redemption makes a session if and only if the runtime has no live family at its clock reading |
| `DeviceSignIn.SecondRedemptionNeedsDeadFirst` | cloud/src/device_auth/mod.rs:159-186 | of two redemptions for one runtime, with anything between them, the second succeeds only if the first session was by then deleted, revoked, idle for 30 days or a year old |
| `DeviceSignIn.AtMostOneSessionPerCode` | cloud/src/device_auth/mod.rs:129-186 | in every run, with anything between the two transactions, a code yields at most one session |
| `DeviceSignIn.SessionIsAsApproved` | cloud/src/device_auth/mod.rs:129-186 | whatever runs after an approval, a session made from the code belongs to the approved runtime and the account that approved it |
| `DeviceSignIn.ApprovalNeedsConsent` | cloud/src/device_auth/web.rs:165-215 | a code becomes approved only from pending, before expiry, by a submission of its current consent token |
| `DeviceSignIn.ApprovalNamesItsConfirmation` | cloud/src/device_auth/web.rs:94-215 | in every run an approval approves the account of the one confirmation that issued the submitted consent token, for that code |
| `DeviceSignIn.SessionsKeep` | cloud/src/device_auth/mod.rs:175-184 | sessions stay well formed through device sign-ins |
| `DeviceStore.Authorizations.BeginConfirm` | cloud/src/device_auth/web.rs:94-114 | binds if and only if the code is open; then only the new consent token confirms it, for this account, until it expires |
| `DeviceStore.Authorizations.SubmitConfirm` | cloud/src/device_auth/web.rs:151-221 | approves, denies or refuses exactly as the confirmation step |
| `DeviceStore.Authorizations.PollToken` | cloud/src/device_auth/mod.rs:105-192 | records the poll, consumes an approved code, and gives the answer of the first matching case |
| `DeviceStore.Authorizations.RuntimeSignedIn` | cloud/src/device_auth/mod.rs:195-218 | the search finds a usable token if and only if there is one |
| `DeviceStore.Authorizations.RedeemTicket` | cloud/src/device_auth/mod.rs:159-186 | a session unless the runtime already has a usable one |
| `UserCode.FormatRoundTrip` | cloud/src/device_auth/mod.rs:244-261 | a formatted code reads back as itself |
| `UserCode.TypingDoesNotMatter` | cloud/src/device_auth/mod.rs:244-256 | dashes and white space anywhere and the case of letters do not matter |
| `UserCode.NormalizedIsStable` | cloud/src/device_auth/mod.rs:244-256 | what is accepted is a valid code, and normalizing it again changes nothing |
| `Configuration.RunKeeps` | cloud/src/configuration.rs:88-132 | in every run the head is the largest revision, the retained ones are exactly the last hundred, and each operation is retained once |
| `Configuration.AppliedAtMostOnce` | cloud/src/configuration.rs:99-119 | no two calls that expect the same revision are both applied, so an identical request is applied at most once even after pruning |
| `Configuration.ReplayAnswers` | cloud/src/configuration.rs:99-114 | an applied request sent again gets its original revision while that is among the last hundred; then an operation conflict if its operation was applied again within the last hundred, else a revision conflict; it changes nothing |
| `Configuration.ReusesAreFarApart` | cloud/src/configuration.rs:99-129 | two applications of one operation id are more than a hundred revisions apart |
| `Configuration.ReusableIff` | cloud/src/configuration.rs:99-129 | an operation id can be applied again, by a call that expects the head, if and only if its last application is more than a hundred revisions back |
| `Configuration.OperationCanBeReused` | cloud/src/configuration.rs:99-129 | a run that applies one operation id at revision 1 and at revision 102 |
| `Configuration.OtherContentConflicts` | cloud/src/configuration.rs:100-104 | a retained operation with other content is refused and changes nothing |
| `Configuration.RequestsAreBounded` | cloud/src/configuration.rs:144-160 | in the time T after the first request at most limit times (T / 1 minute + 1) requests are served |
| `ConfigurationStore.Account.FindOperation` | cloud/src/configuration.rs:99-101 | where an operation is retained, if it is |
| `ConfigurationStore.Account.PublishRevision` | cloud/src/configuration.rs:88-132 | the transaction has exactly the effect of the publish step, and keeps the last hundred revisions |
| `ConfigurationStore.Account.LimitRequests` | cloud/src/configuration.rs:144-160 | counts or refuses a request in its own bucket only |
| `FixedWindow.AccountBound` | edge/src/runtime_relay.ts:321-341 | units admitted by a fixed window in the time T after the first are at most limit times (T / period + 1) |

## Left out

- HTTP and WebSocket handling, JSON, base64, JWT, hashing, encryption and signatures: a frame arrives with the command it decodes to, a grant with its verdict, a secret with its identity.
- The relay's MCP calls (client id `~mcp`): a runtime's frame for them is handed over as an output; what they do with it, and with sockets that close, is not part of this model.
- Decryption at delivery: a stored secret is taken to decrypt when a delivery is signed; at a subscribe request it is a parameter.
- Events that become visible only after a cursor was issued although received before it (an insert that commits late): the result about cursors takes later arrivals as received at or after the cursor's time.
- Callback delivery over the network, its address policy, and the challenge bodies of subscription verification; a challenge is an event that succeeds or not.
- Subscription bookkeeping that no modelled step reads: last error, last delivery time, update time.
- The clauses of maintenance for tables outside this model; deletions of events and subscriptions may take any rows at any time, which includes the real clauses.
- Deletion of accounts and of push events with their attempts: the results about push pairs hold while the event exists.
- The order in which due rows and new events are picked; batches are any sets within the batch limits.
- The individual payload checks of an event (`catalog`, id syntax) and the choice of the data fields to keep: each check is given by the code it fails with.
- Retries of the user-code insert, the rendered pages, and the registration of a runtime inside a confirmation, which is given as success or failure.
- The sign-in check at the start of a device flow: codes may be issued at any time, which includes when the check passes. The confirmation's denial after a failed registration may likewise come at any time.
- Range limits of date types, and 32-bit widths of counters that their limits keep small.
- Liveness: nothing is claimed to happen eventually.
- EventReplay.CursorIsCompleteIff: names and transfers of runtimes are not modelled, so a refresh that has a runtime argument may resolve it to any runtime its grant covers, and events of all of them count.
- EventStore.Tables.ClaimDue: the worker's own task, with the snapshot it loads, is part of the step system only, not of the class.
- RelayLimits.SocketsExpireSoon: assumes that each grant was verified at or before the turn that installs it, which the source does before it forwards a connection.
