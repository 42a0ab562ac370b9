# A verified model of the SSE gateway

The gateway is an in-memory publish/subscribe engine: it admits clients with signed tickets,
files them under routing keys in a sharded hub, receives encrypted events from a bus, passes
them through ordered lanes, and fans frames out to bounded client queues, from which each
connection's writer streams them as Server-Sent Events. This project models its core in Dafny
and proves what it promises. `dafny verify dfyconfig.toml` checks everything.

Every main result is a statement about all inputs, all runs or all reachable states.

* **The hub twice.** `Hub.dfy` (with `Clients.dfy`, `Quota.dfy`, `HubShard.dfy`) is the hub as
  classes with atomic methods; it refines the flat relation {(key, client)} of `HubIndex.dfy`
  for every shard count and every hash. `HubProtocol.dfy` is the hub under concurrency: any
  number of Register, Unregister and InvalidateUser calls interleaved lock section by lock
  section. `HubInvariant.dfy` and `HubSafety.dfy` hold the invariant, per client and over whole
  states, `HubLate.dfy` that of entries inserted too late, `HubCalls.dfy` what calls have achieved
  when they return, and `HubTheorems.dfy` the results.
* **The lanes.** `LaneProtocol.dfy` interleaves dispatchers, workers and any number of Close
  calls over channels, the reader-writer lock, the closed flag and the depth counter;
  `LaneSafety.dfy` proves the results.
* **Delivery.** `ClientQueue.dfy` holds the bounded queue and its three policies over whole
  runs. `Delivery.dfy` and `DeliveryOrder.dfy` follow an event from the bus through lanes and
  fan-outs, interleaved at single channel operations, to the writers; `DeliveryComplete.dfy` shows
  that an undisturbed enqueue is the atomic offer and that every event can arrive.
* **Routing.** `Router.dfy` (on `Text.dfy`) builds and parses routing keys; `Gateway.dfy`
  composes tickets, keys, hub and consumer into tenant isolation.
* **Codecs.** `Sse.dfy`, `EventStream.dfy` and `StreamHarness.dfy` print frames and read them
  back, once after sections 9.2.5 and 9.2.6 of the WHATWG HTML Living Standard and once as the
  test harness does; `Aad.dfy` and `Envelope.dfy` cover authenticated data and key envelopes.
* **Small protocols.** `Readiness.dfy` is the double-checked readiness cache, `Backoff.dfy` the
  reconnect delays in 64-bit arithmetic.

In the step systems a run is any sequence of steps and a step that is not enabled changes
nothing, so the theorems speak of every interleaving. History fields record what happened and
are read by no step.

Promises that turned out not to hold as they stand, each with a witness and the exact condition
under which they do hold:

* The index can keep an entry of a client that is no longer live if InvalidateUser runs during a
  Register of the same user (`StaleEntryAfterOverlap`). It keeps exactly the entries that were
  inserted too late: for a client already marked, or into a shard that a running InvalidateUser
  of the user had already swept (`IndexAtRest`). Without overlap there are none
  (`IndexExactAtRest`).
* Sanitized names do not by themselves separate tenants, although the comments on
  `sanitizeKeyPart` and `BuildKey` say so: a tenant named `{app}` shares keys with another
  (`PlaceholderTenantCollides`, `IsolationNeedsSafeNames`). Keys are what the template says
  exactly for the pairs in `Safe` (`FaithfulExactlyWhenSafe`).
* Two users can share one user counter, so a user who holds nothing can be refused
  (`SharedUserKeyRefuses`). A user has a counter of its own exactly when neither its tenant nor
  its own name contains a colon (`UserKeyOwnExactlyWhenColonFree`), and then a refusal is right
  exactly when one more connection would break a limit (`CheckExact`). The limits hold all the
  same (`QuotaSafety`).
* Authenticated data is ambiguous exactly where a field contains a bar
  (`AADUniqueExactlyWhenBarFree`); without bars in tenant, app and topic it is injective.
* A heartbeat reaches a client once for each shard that hosts its keys: twice in
  `HeartbeatTwice`, and once exactly when all its keys are in one shard
  (`HeartbeatOnceExactly`).
* A heartbeat comment is not sanitized inside and can carry an event (`CommentCarriesEvent`). It
  carries none exactly when none of its lines is a line of data (`HeartbeatEventFreeExactly`),
  and it leaves no trace at all exactly when it has no id line either
  (`HeartbeatSilentExactly`).
* The harness does not see a frame that is empty in all three fields
  (`HarnessMissesEmptyFrames`).
* The reconnect delays follow their law exactly when the least delay is at most the longest and
  twice the longest is a 64-bit number; otherwise the first delay is too long or the doubling
  wraps around (`DelayLawExact`).
* The depth of the lanes can be negative for a moment (`DepthCanBeNegative`); `DepthMeaning`
  says by how much.

## Model

| member | source | states |
|---|---|---|
| HubTheorems.QuotaSafety | internal/hub/quota.go:45-114 | in every reachable state of every interleaving the three counters are exactly the counts over clients acquired and not released, no zero entry remains, the global, per-tenant and per-user limits hold, and no client is released twice or without having been acquired |
| HubTheorems.ReleaseGuardsIdle | internal/hub/quota.go:64-86 | whenever a Release is about to run every counter it decrements is positive, so no guard hides a lost decrement |
| HubTheorems.MarkedIsClosed | internal/hub/hub.go:160-178 | a client marked unregistered is closed, or the winner of the swap is about to close it |
| HubTheorems.InvalidateCounts | internal/hub/hub.go:237-251 | under every interleaving InvalidateUser returns the number of clients whose swap it won, all of its user, closed, and released exactly once |
| HubTheorems.EntriesAtRest | internal/hub/hub.go:137-178 | when all calls have returned a live client has all its entries, and an entry is of a live client or of one whose Register an InvalidateUser overlapped |
| HubTheorems.IndexExactAtRest | internal/hub/hub.go:137-251 | when all calls have returned the counters count the live clients, tables are tidy and no inner map is empty, and for clients without overlap the shards hold exactly the entries of live clients, each key in its own shard |
| HubTheorems.IndexAtRest | internal/hub/hub.go:137-251 | when all calls have returned, whatever raced, an entry is of a live client under one of its keys or it was inserted too late, and conversely |
| HubTheorems.LateAtRest | internal/hub/hub.go:151-168 | a client that is no longer live keeps exactly the entries that were inserted too late |
| HubTheorems.LateOnlyByOverlap | internal/hub/hub.go:151-168 | such entries exist only for clients whose Register an InvalidateUser overlapped |
| HubTheorems.EntriesAlwaysRightful | internal/hub/shard.go:62-76 | in every reachable state, at rest or not, an entry is in the shard of its key and of a client admitted with that key |
| HubLate.RunLate | internal/hub/hub.go:137-251 | the invariant of late entries holds after every run |
| HubTheorems.StaleEntryAfterOverlap | internal/hub/hub.go:151-168 | a reachable run that ends with an entry of a client that is no longer live |
| HubTheorems.InvalidateRevokes | internal/hub/hub.go:237-251 | when an InvalidateUser has returned, every client of its user that was registered before it started is marked, or another InvalidateUser has it in hand |
| HubTheorems.RevokedAtRest | internal/hub/hub.go:237-251 | once all calls have returned none of those clients is live |
| HubTheorems.UnregisterEnds | internal/hub/hub.go:160-178 | when an Unregister has returned its client is marked and not live |
| HubTheorems.TopicsLimited | internal/hub/hub.go:142-144 | in every reachable state no admitted client has more topics than the limit |
| HubTheorems.RegisterChecksExactly | internal/hub/hub.go:138-144 | in every reachable state a Register passes its first checks exactly when the hub is open and the topics are within the limit |
| HubTheorems.RegisterAdmitsExactly | internal/hub/hub.go:146-149 | in every reachable state, for names without a colon, it is then admitted exactly when one more connection keeps every limit |
| HubTheorems.ClosedStays | internal/hub/hub.go:270-271 | a closed hub stays closed |
| HubCalls.RunCalls | internal/hub/hub.go:137-251 | the invariant of what calls have achieved holds after every run |
| HubSafety.RunInv | internal/hub/hub.go:137-251 | the invariant that joins counters, index, flags and running operations holds after every run |
| Quota.AcquireCounts | internal/hub/quota.go:45-61 | acquiring keeps the counters exact counts |
| Quota.ReleaseCounts | internal/hub/quota.go:64-86 | releasing a held connection undoes exactly its acquisition and needs no guard |
| Quota.AdmissionKeepsLimits | internal/hub/quota.go:95-114 | the check admits only where one more connection keeps every limit, although user keys may merge users |
| Quota.SharedUserKeyRefuses | internal/hub/quota.go:100-105 | two users of different tenants share one user key, and one is refused for the other |
| Quota.UserKeyOwnExactlyWhenColonFree | internal/hub/quota.go:54-55 | a user shares its counter with no other user exactly when neither tenant nor user contains a colon |
| Quota.CheckExact | internal/hub/quota.go:95-114 | for such a user the check refuses exactly when one more connection would break a limit |
| Quota.CheckReason | internal/hub/quota.go:95-114 | which limit is named, in terms of the connections held: all connections before those of the user before those of the tenant |
| Quota.QuotaTracker.CheckUnderLock | internal/hub/quota.go:95-114 | the first limit that is reached, in the order of the source, and nothing if none is |
| Quota.QuotaTracker.Acquire | internal/hub/quota.go:45-61 | a refusal leaves the counters alone, an admission adds one to each class |
| Quota.QuotaTracker.Release | internal/hub/quota.go:64-86 | the counters after a release, with entries deleted at zero |
| Shards.InsertMeans | internal/hub/shard.go:24-35 | insertion changes exactly one entry and one listing and keeps the shape |
| Shards.RemoveMeans | internal/hub/shard.go:38-49 | removal deletes exactly one entry and one listing and leaves no empty inner map |
| Shards.RemoveAllMeans | internal/hub/shard.go:91-113 | a sweep deletes exactly the entries and listings of the swept clients |
| HubShard.Shard.Register | internal/hub/shard.go:24-35 | afterwards the client is under the key and in the table, and all else is as before, even for a key that was not there |
| HubShard.Shard.Unregister | internal/hub/shard.go:38-49 | afterwards the client is neither under the key nor in the table, all else is as before, and a key without clients is gone |
| HubShard.Shard.HasSubscribers | internal/hub/shard.go:52-59 | true exactly when some client is under the key |
| HubShard.Shard.GetRecipients | internal/hub/shard.go:62-76 | exactly the clients under the key, each once |
| HubShard.Shard.GetAllClients | internal/hub/shard.go:79-88 | exactly the listed clients, each once |
| HubShard.Shard.InvalidateUser | internal/hub/shard.go:91-113 | returns exactly the user's listed clients, each once, and removes all their entries and no other's |
| HubIndex.SubscribersMean | internal/hub/hub.go:84-87 | the shard of a key holds exactly the key's clients in the flat relation |
| HubIndex.ListedMeans | internal/hub/shard.go:79-88 | a shard lists exactly the clients that have a key there |
| HubIndex.TidyAgain | internal/hub/hub.go:172-175 | the client tables, broken while Unregister removes key after key, are whole again once no entry is left |
| Hub.Hub.constructor | internal/hub/hub.go:51-73 | an empty hub, with 256 shards where the count is not positive |
| Hub.RefusalMeans | internal/hub/hub.go:124-149 | a closed hub refuses everyone, an open one too many topics, each for that reason, and the rest are refused exactly as the quota check says |
| Hub.RefusalExact | internal/hub/hub.go:137-149 | for names without a colon, admission is equivalent to an open hub, topics within the limit and one more connection keeping every limit |
| Hub.Hub.CheckLimits | internal/hub/hub.go:124-134 | the refusal that a registration would meet |
| Hub.Hub.Register | internal/hub/hub.go:137-157 | refuses for exactly the source's reasons and then changes nothing; otherwise the flat relation grows by the client's keys and the counters by the client; the limits on connections and on topics are kept |
| Hub.Hub.Unregister | internal/hub/hub.go:160-178 | the first call removes exactly the client's entries, closes it and releases it; a later call or a nil client changes nothing |
| Hub.Hub.HasSubscribers | internal/hub/hub.go:181-183 | agrees with the flat relation |
| Hub.Hub.Recipients | internal/hub/shard.go:62-76 | the subscribers of the flat relation, without duplicates |
| Hub.Hub.ConditionalBroadcast | internal/hub/hub.go:188-224 | the builder runs once if there is a subscriber and never otherwise; only subscribers' queues change, none on error or without a frame; the result counts the accepting subscribers |
| Hub.BroadcastMeans | internal/hub/hub.go:209-214 | the frame is the last in the queue of exactly the addressed clients that take it, which are the ones counted, and no other frames change |
| Hub.Hub.BroadcastHeartbeat | internal/hub/hub.go:227-234 | every client's queue is what offering the frame once for each shard that hosts its keys leaves |
| Hub.HeartbeatArrives | internal/hub/hub.go:227-234 | an open client with a key and room in its queue ends up with the heartbeat |
| Hub.HeartbeatCopies | internal/hub/hub.go:227-234 | an open client with room gets one copy for each shard that hosts its keys |
| Hub.HeartbeatOnceExactly | internal/hub/hub.go:227-234 | a heartbeat is offered exactly once if and only if the client has a key and all its keys are in one shard |
| Hub.HeartbeatTwice | internal/hub/hub.go:227-234 | a run in which a client gets one heartbeat twice |
| Hub.Hub.InvalidateUser | internal/hub/hub.go:237-251 | returns the number of the user's clients under some key, each once however many shards host it, closes, marks and releases them, and leaves the others as they are |
| Hub.Hub.Close | internal/hub/hub.go:270-286 | the first call closes every client that has a key; later calls do nothing |
| Clients.Client.constructor | internal/hub/client.go:33-51 | an open empty queue with the source's default size and policy |
| Clients.Client.MarkUnregistered | internal/hub/client.go:55-57 | true for the first caller only |
| Clients.Client.EnqueueFrame | internal/hub/client.go:60-97 | accepted while there is room; otherwise the policy decides between the oldest frame, the new frame and the connection; never after Close |
| ClientQueue.OfferMeans | internal/hub/client.go:60-97 | an offer is accepted exactly when the queue is open and has room or drops its oldest; it then holds the last frames that fit; otherwise the frames stay, and the queue closes exactly under a policy that drops nothing |
| ClientQueue.Backpressure | internal/hub/client.go:60-97 | over every run of offers, takes and closes: never over capacity; a gapless prefix under disconnect or an unknown policy; a suffix under drop_oldest; nothing accepted is discarded under drop_newest |
| ClientQueue.NothingAfterClose | internal/hub/client.go:60-105 | after Close nothing is accepted, whatever follows |
| LaneSafety.NoPanic | internal/event/lane.go:91-137 | in no interleaving is there a send on a closed lane or a second close of a lane; readers past their check exclude the closer |
| LaneSafety.DepthMeaning | internal/event/lane.go:75-109 | the depth is what is queued plus what is received and not yet subtracted minus what is sent and not yet added |
| LaneSafety.LanesAreFifo | internal/event/lane.go:75-118 | what a lane accepted is what it handled, then what its worker holds, then what is queued, all of it of its own keys and within capacity |
| LaneSafety.SameKeySameLane | internal/event/lane.go:99-104 | in every run events with one routing key, or without one and with one tenant, app and topic, share a lane |
| LaneSafety.AnswersAreExact | internal/event/lane.go:91-118 | in every run a lane has accepted an event exactly as often as a Dispatch of it has answered true or is about to |
| LaneSafety.DispatchAccepts | internal/event/lane.go:95-117 | in every run a Dispatch goes on exactly when not closed, and its event becomes the last of its lane exactly when there is room |
| LaneSafety.WorkerProgress | internal/event/lane.go:75-86 | in every run a ready worker takes the first event, handles it before the next, and ends exactly when its lane is closed and empty |
| LaneSafety.DrainIsComplete | internal/event/lane.go:127-157 | if Close leaves by its done branch every accepted event was handled before the cancellation, the lanes are closed and empty and the depth is zero |
| LaneSafety.DepthCanBeNegative | internal/event/lane.go:79-108 | a reachable run with depth -1 |
| DeliveryOrder.PerKeyOrder | cmd/server/main.go:235-287 | for every client, key and run the key's frames that the writer takes come from a subsequence of the key's events in bus order, for any lanes, policies and other producers |
| DeliveryComplete.UndisturbedEnqueueIsOffer | internal/hub/client.go:60-97 | the channel operations of one enqueue, undisturbed, do what the atomic offer does |
| DeliveryComplete.EverythingCanArrive | cmd/server/main.go:235-287 | for every configuration with room and every client there is a run in which the writer takes the frames of all events, in order |
| DeliveryOrder.RunInv | internal/hub/hub.go:188-214 | the order invariant of lanes, fan-outs and queues holds after every run |
| Router.SanitizeMeans | internal/event/router.go:48-50 | colons become underscores and nothing else changes |
| Text.ReplaceIdentity | internal/event/router.go:54-59 | a replacement leaves a text as it is exactly when the pattern is absent or replaced by itself |
| Router.BuildKeyIs | internal/event/router.go:54-59 | for all values, the key with the text that later replacements rescan |
| Router.PlainKey | internal/event/router.go:54-59 | the key of names without colons and braces, written out |
| Router.FaithfulExactlyWhenSafe | internal/event/router.go:54-59 | the key is the one that the template describes, for every topic, exactly for safe pairs of tenant and app |
| Router.BuildKeyInjective | internal/event/router.go:46-59 | keys of safe pairs are equal exactly when tenant and app agree up to sanitization and the topics are equal, empty parts and colons included |
| Router.PlaceholderTenantCollides | internal/event/router.go:54-59 | the tenant named like the app placeholder shares every key with the tenant named like the app |
| Router.ParseKeyMeans | internal/event/router.go:63-80 | the parser accepts exactly the keys that the expression matches and yields their parts |
| Router.ParseBuilt | internal/event/router.go:54-80 | a built key parses back to its sanitized parts exactly when no part is empty and the topic has no line feed |
| Router.BuildParsed | internal/event/router.go:54-80 | a parsed key with a safe pair is rebuilt from its parts |
| Gateway.RoutingIsolation | internal/api/handlers.go:134-138 | between safe names an event reaches a capability exactly when tenant and app agree up to sanitization and the capability has the topic |
| Gateway.IsolationNeedsSafeNames | internal/event/router.go:54-59 | a capability of one tenant that reaches another tenant's event |
| Gateway.SubscribersAreAddressees | internal/api/handlers.go:134-157 | the subscribers of an event's key are exactly the clients whose capability the event reaches |
| Gateway.Gateway.BuildKeys | internal/api/handlers.go:134-138 | one key per topic, in order |
| Gateway.Gateway.Admit | internal/api/handlers.go:124-163 | refuses for exactly the hub's reasons; otherwise the new client, with the given id, queue size and policy, is registered under the keys of its capability |
| Gateway.Gateway.HandleEvent | internal/pipeline/processor.go:150-180 | offers the frame to exactly the addressees, runs the builder only if there are any, and keeps every queue free of frames that do not reach its client |
| Gateway.BroadcastIsolated | internal/hub/hub.go:209-214 | a broadcast puts the frame of an event only into queues of clients it reaches |
| Gateway.HeartbeatIsolated | internal/hub/hub.go:227-234 | a heartbeat adds nothing to the queues but itself |
| Gateway.RightfulIsDue | internal/event/router.go:46-59 | between safe names a frame that reaches a client is one that its capability entitles to, and conversely |
| Gateway.Gateway.Route | cmd/server/main.go:268-286 | the subscriber pre-filter is sound: queues and builder end up as if the event had been handled; an event that the lane refuses changes nothing |
| Gateway.Gateway.Consume | cmd/server/main.go:240-286 | foreign schemas and refused dispatches change nothing, invalidations revoke the user's clients, other events are broadcast to their addressees |
| Gateway.Gateway.Heartbeat | internal/hub/hub.go:227-234 | every client gets the heartbeat once for each shard that hosts its keys, and isolation is kept |
| Gateway.Gateway.Deliver | internal/api/handlers.go:221-240 | whatever a writer takes, also for a client just revoked, is a heartbeat or of an event that reaches the client; between safe names it is of an event that the client's capability entitles to |
| Gateway.Gateway.Disconnect | internal/api/handlers.go:182-182 | the deferred Unregister ends the registration once and keeps isolation |
| Sse.SanitizeHeaderMeans | internal/hub/frame.go:21-28 | a sanitized header is on one line, is trimmed, and has only characters of its input |
| Sse.SanitizeHeaderDrops | internal/hub/frame.go:21-28 | a sanitized header is the input without CR and LF, in order, less white space at the two ends, and nothing else is lost |
| Sse.SanitizeHeaderKeeps | internal/hub/frame.go:21-28 | exactly the headers on one line and without white space at the ends are printed as they are |
| Sse.IsSpaceExactly | internal/hub/frame.go:27-27 | white space by code point |
| Sse.FrameOnTheWire | internal/hub/frame.go:32-52 | the bytes of a frame whose type and id need no cleaning |
| Sse.HeartbeatOnTheWire | internal/hub/frame_test.go:41-56 | the three heartbeats of the unit test, byte by byte |
| Sse.NewDataFrame | internal/hub/frame.go:32-52 | the buffer, filled piece by piece, holds the frame with its optional headers |
| EventStream.RoundTrip | internal/hub/frame.go:21-64 | for every sequence of frames, the standard's reader yields one event per data frame, in order, with sanitized type, sanitized or kept id and exact payload, and nothing for silent heartbeats |
| EventStream.DataFrameExact | internal/hub/frame.go:32-52 | a data frame is read back exactly when the payload is on one line and the sanitized id has no NUL |
| EventStream.HeartbeatSilentExactly | internal/hub/frame.go:55-64 | a heartbeat leaves every reader between events as it was exactly when it has no line of data and no id line free of NUL |
| EventStream.HeartbeatEventFreeExactly | internal/hub/frame.go:55-64 | a heartbeat carries no event exactly when it has no line of data |
| EventStream.CommentCarriesEvent | internal/hub/frame.go:55-64 | a comment with a line end that makes a heartbeat carry an event |
| StreamHarness.Decode | tests/harness/stream.go:95-123 | the loop yields what the lines denote, but for frames that find the channel full |
| StreamHarness.HarnessReads | tests/harness/stream.go:95-123 | the harness reads back every data frame that is not empty in all three fields, in order, and nothing for heartbeats |
| StreamHarness.HarnessMissesEmptyFrames | tests/harness/stream.go:105-110 | it sees as many frames as the standard's reader exactly when no data frame is empty in all three fields |
| Aad.DefaultAAD | internal/crypto/aes.go:30-54 | on the default template the five fields with bars between them, whatever the fields contain |
| Aad.FormatIntMeans | internal/crypto/aes.go:51-51 | the numeral denotes the number, with a sign exactly if it is negative and no leading zero |
| Aad.FormatIntInjective | internal/crypto/aes.go:51-51 | decimal numerals of 64-bit integers are unambiguous and free of bars |
| Aad.AADInjective | internal/crypto/aes.go:25-54 | injective where tenant, app and topic have no bar, event ids with bars and negative versions included |
| Aad.AADUniqueExactlyWhenBarFree | internal/crypto/aes.go:30-54 | a context is the only one with its data exactly when no field has a bar |
| Envelope.Accept | internal/crypto/httpclient/client.go:204-222 | accepted exactly when the three parts decode, the nonce has 12 bytes and the key fits a 16-bit length; each part is the decoding of its own field |
| Envelope.EncodeBinaryEnvelope | internal/crypto/httpclient/client.go:203-233 | the receiver of the buffer gets the suite id and the three decodings, each in its own field, exactly when the wrapped key has at least 16 bytes; a refusal names the first of the five reasons |
| Envelope.LayoutFields | internal/crypto/httpclient/client.go:224-231 | length and position of every field; the 16-bit length is never truncated |
| Envelope.DecodeEncoded | internal/crypto/httpclient/client_test.go:134-149 | the receiver gets back the same parts exactly when the wrapped key has at least 16 bytes, and refuses the others as too short |
| Envelope.LayoutInjective | internal/crypto/httpclient/client.go:224-231 | equal encodings have equal parts |
| Envelope.EncodeDecoded | internal/crypto/httpclient/client_test.go:134-149 | whatever decodes is the encoding of its parts |
| Readiness.RoundsNeverOverlap | internal/api/handlers.go:272-310 | in every interleaving at most one request probes, and each round starts at least two seconds after the one before was recorded |
| Readiness.RepliesComeFromOneRound | internal/api/handlers.go:261-311 | every reply is the report of one completed round; a cached one is of the latest round and less than two seconds old |
| Readiness.CacheAnswersExactly | internal/api/handlers.go:261-285 | in every run a request is answered from the cache exactly when the last round was recorded less than two seconds ago, at the first look and at the second |
| Hashing.ShardIndexIsHash | internal/hashutil/hash.go:13-18 | the partition is congruent to the hash modulo the number of partitions |
| Readiness.SummaryMeans | internal/api/handlers.go:287-301 | a round reports ready exactly when no probe failed, and names every checker |
| Readiness.SummaryTells | internal/api/handlers.go:291-301 | where checkers have distinct names the details tell each outcome |
| Backoff.SaneDelays | internal/bus/valkey/valkey.go:201-220 | after n failures the delay is the least one times 2^n up to the limit, doubling and jitter stay in range, and the sleep is the delay, plus with jitter less than half of it |
| Backoff.Normalized | internal/bus/valkey/valkey.go:70-75 | a quarter of a second and half a minute stand in for limits that are not positive |
| Backoff.StreakMeans | internal/bus/valkey/valkey.go:166-167 | a streak is made of failures, and what comes before it is not one |
| Backoff.DelayLawExact | internal/bus/valkey/valkey.go:216-220 | for all positive limits, that law holds for every n exactly when the least delay is at most the longest and twice the longest is a 64-bit number |
| Backoff.RunSubscribeLoop | internal/bus/valkey/valkey.go:148-221 | over any sequence of messages, failures and stops each failure sleeps for the delay of its streak, never drawing from an empty range; a stop ends the loop, and without reconnection the first failure does |

## Left out

- AES-GCM, Ed25519 and ticket validation, ML-KEM and Base64 are foreign code: a builder yields a frame, nothing or an error, a capability is given, and Base64 decoding is a parameter.
- HTTP, TLS, Unix sockets, the Valkey client and JSON: input and output. That a serialized payload has no raw line end is a hypothesis of the round trip, not proved of the JSON encoder.
- Configuration, metrics, logging, URL redaction, trace ids, security headers and the slow-client callbacks: no hard property.
- The rate limiter gives each address a token bucket of a library and forgets idle ones; the handshake semaphore caps concurrent admissions; the in-memory bus fans out to subscriber channels with non-blocking sends; the X-Forwarded-For walk picks the first address from the right that is not a trusted proxy. None of them is modelled.
- FNV-1a itself: everything holds for every hash; counts of shards and lanes are below 2^32, as the conversion in ShardIndex needs.
- Custom routing templates and general regular expressions: keys are modelled on the default template only, and ParseKey as a direct parser of its expression. The text of events is a sequence of characters; malformed UTF-8 is not modelled.
- Times: drain and write timeouts are steps that may happen at any moment; only the readiness cache has a clock, which never goes back.
- Lanes, readiness cache and delivery are step systems on values instead of classes, because their steps interleave; shared memory below the level of one lock section, atomic instruction or channel operation is not modelled.
- Each client is registered at most once under a unique id, and a Register gets the client's own topics, as the only caller ensures (internal/api/handlers.go:146-157); a client without topics cannot be found by InvalidateUser, and tickets always have a topic (internal/auth/jwt.go:194-196).
- Gateway.Gateway.Route: whether the lane takes the event is a parameter, and an event that it takes is handled at once; the interleaving of consumer, lanes and writers is in the delivery model.
- StreamHarness.Decode: whether the channel has room is a parameter, and the limit of 16 MB for a line, which counts bytes, is not modelled.
- Envelope.Decode: also returns the encapsulated key, which the test gateway skips over.
- Backoff.RunSubscribeLoop: messages and failures come one after the other, as the callback runs only within Receive; a sleep that a stop cuts short is listed with its full length.
- Readiness.RoundsNeverOverlap: a request that is refused because the service shuts down, and a probe that panics, are not modelled.
