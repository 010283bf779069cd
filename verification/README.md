# Verified model of the Bully messenger

A Dafny model of the protocols of an end-to-end encrypted messenger: a Flutter client
(`client/`, Dart) and a Go relay (`backend/`). `dafny verify dfyconfig.toml` checks all of it.

| files | what they model |
|---|---|
| `SymbolicCrypto`, `Ratchet`, `RatchetAgreement`, `RatchetExactness`, `RatchetDivergence`, `SkipLimit` | the Double Ratchet session, two of them over a bad network, and what happens outside the theorem's hypotheses |
| `SessionManager`, `CrashSafety`, `CrashAgreement` | sessions with storage, crashes and restarts, alone and as a pair |
| `SenderKeys`, `GroupSessions`, `GroupRestarts` | group sender keys, their distribution over pairwise ratchets, and restarts |
| `Padding`, `Transport`, `Reframing`, `Connections`, `TransferFraming` | fixed-size frames, pumps, reassembly, reframing of byte streams |
| `Hub`, `OfflineQueue`, `RelayHandler`, `Relay`, `RelaySoundness`, `RelayRefinement` | the relay node: registry, queue, handlers, their interleavings, and how the two fit |
| `MessageInbox`, `InboxAgreement`, `OwnReplay`, `ChatHistory`, `BackgroundSync` | incoming messages, own ones replayed to their sender, the local history, LAN sync |
| `NodeTrustMonitor`, `RateLimit`, `Calls`, `CallScenarios` | trust flag, rate limiter, call signalling and what it adds up to between parties |

Code that changes state step by step is a class or a method with loops, proved equal to a
function; what the program promises is proved about that function, over every run.

## What is assumed

- **Cryptography is symbolic.** Key derivation, encryption and Diffie-Hellman are free
  constructors, and a box opens only under the sealing key and associated data. The two HKDF
  calls of the ratchet share one info string, so the 96-byte output begins with the 64-byte
  one; the terms `Root`, `Chain`, `ChainB` keep that prefix relation.
- **Agreement of two ratchets is not unconditional.** Its hypotheses are the guards of
  `RatchetAgreement.Allowed`: distinct identity keys; only the peer's messages; no duplicate;
  no message of an older sender key after one of a newer key (`NotStale`); not both sides
  rotating away from their identity keys (`NotCrossing`); gaps of at most 1000. The comment in
  `double_ratchet.dart:59-66` says either side can send first; when both first messages cross,
  the code rotates on both sides and the sessions part. `RatchetExactness.DeliveryExactly`
  says for every message ever sent whether it decrypts on delivery, in order or not. The
  header moves the session before anything is authenticated, so made-up messages count, too:
  `RatchetDivergence.SingleDeliveryExactly` says which messages at all end the conversation,
  and `RatchetDivergence.ForkIsFatal` that they do so for good. Section 3.5 of "The Double Ratchet Algorithm"
  looks into the skipped keys first; this code tests for a new key first, hence `NotStale`.
- **One operation on one session is one step**; handlers of the call controller and of the
  trust monitor run to completion. The relay's handlers interleave at every enqueue, lookup,
  snapshot, send and queue read.
- **Generated keys and ids are new**, and the clock, random bytes and query results are inputs.

## Model

| member | source | states |
|---|---|---|
| SymbolicCrypto.AdvanceInjective | client/lib/core/crypto/double_ratchet.dart:211-221 | one chain gives the same message keys at two positions only if they are the same position |
| SymbolicCrypto.SealOpens | client/lib/core/crypto/double_ratchet.dart:116-123 | the two-layer cascade opens under exactly the keys and header it was sealed with |
| Ratchet.RatchetSession.Init | client/lib/core/crypto/double_ratchet.dart:67-95 | both directions' chains come from one Diffie-Hellman value, picked by comparing the identity keys |
| Ratchet.RatchetSession.Encrypt | client/lib/core/crypto/double_ratchet.dart:109-125 | the message is sealed under the next keys of the sending chain and carries its number |
| Ratchet.RatchetSession.Decrypt | client/lib/core/crypto/double_ratchet.dart:127-155 | result and whole new state, for any header and ciphertext, failures included |
| Ratchet.RatchetSession.SkipMessageKeys | client/lib/core/crypto/double_ratchet.dart:157-168 | the loop ends, and refuses more than 1000 without touching the session |
| Ratchet.RatchetSession.RotateOwnSendingChain | client/lib/core/crypto/double_ratchet.dart:170-179 | the one-off move of the sending side away from the identity key |
| Ratchet.RatchetSession.DhRatchetStep | client/lib/core/crypto/double_ratchet.dart:181-198 | two root steps: the receiving chain under the old key pair, the sending chain under a new one |
| Ratchet.RatchetSession.FromStored | client/lib/core/crypto/double_ratchet.dart:231-271 | from whatever a session stored exactly that session is rebuilt; a blob without the two later fields gets their defaults |
| Ratchet.SkipMovesChain | client/lib/core/crypto/double_ratchet.dart:162-167 | skipping advances the receiving chain to the target and touches nothing but the map besides |
| Ratchet.SkipStores | client/lib/core/crypto/double_ratchet.dart:162-167 | exactly the positions passed over are stored, each with its keys; every other entry stays |
| Ratchet.DecryptStoresAtMostTwoThousandKeys | client/lib/core/crypto/double_ratchet.dart:127-168 | one decrypt of any message adds at most 2000 stored keys |
| RatchetAgreement.Agreement | client/lib/core/crypto/double_ratchet.dart:67-198 | after any run with losses and reordering, every allowed delivery decrypts to exactly the plaintext encrypted |
| RatchetAgreement.RootsStayClose | client/lib/core/crypto/double_ratchet.dart:170-198 | in every run the two root keys are equal or one step apart, by the Diffie-Hellman value of the present keys |
| RatchetAgreement.SkippedKeysExact | client/lib/core/crypto/double_ratchet.dart:138-168 | in every run the skipped-key map holds exactly the messages passed over and not consumed, each with keys that open it |
| RatchetAgreement.StepKeeps | client/lib/core/crypto/double_ratchet.dart:109-198 | every send and every allowed delivery keeps the two sessions in step |
| RatchetExactness.DeliveryExactly | client/lib/core/crypto/double_ratchet.dart:127-155 | for every message the peer ever sent, stale and crossing ones included: decryption succeeds, with the plaintext, if and only if the message was not delivered before and no skip it asks for is refused; under an older key that is the turn's skip alone |
| RatchetExactness.OwnNeverDecrypts | backend/internal/relay/relay.go:141-144 | a user's own messages, which the relay replays, never decrypt in its own session |
| RatchetExactness.BurnsAtMostOne | client/lib/core/crypto/double_ratchet.dart:138-155 | after any message under the present sender key, repeated or made up included, each message of that batch still decrypts if and only if it was not delivered before, is not the one position whose keys were taken, and is within the skip limit |
| SkipLimit.SkipLimitExactly | client/lib/core/crypto/double_ratchet.dart:127-168 | the skip limit in terms of what was sent and received: after every run a message decrypts if and only if it was not received before and, counted from one past the furthest message received of the batch being read, at most 1000 are passed over: up to the message itself in that batch, up to the end of that batch and then up to the message in the next one, up to the end of the batch before its own in an older one |
| SkipLimit.RestIsStoredExactly | client/lib/core/crypto/double_ratchet.dart:127-168 | the first message of a new batch stores the missing messages of the one before, all of them and no others, if and only if that count is at most 1000; otherwise the session stays put |
| RatchetDivergence.CrossingDiverges | client/lib/core/crypto/double_ratchet.dart:134-136 | when both sides rotate, whatever message makes the second one do so, their roots part into disjoint branches of the key tree |
| RatchetDivergence.FollowerTurnsAway | client/lib/core/crypto/double_ratchet.dart:127-136 | any message naming another key than the present one turns the side that is behind into a branch its peer is not in, before anything is authenticated |
| RatchetDivergence.LeaderTurnsPends | client/lib/core/crypto/double_ratchet.dart:127-136 | any message naming a new key leaves nothing the side that is ahead derives from then on readable by the peer |
| RatchetDivergence.FreshTurnsAstray | client/lib/core/crypto/double_ratchet.dart:127-136 | before anything was received, any key but the peer's leads into a branch no key of the peer opens |
| RatchetDivergence.SingleDeliveryExactly | client/lib/core/crypto/double_ratchet.dart:127-136 | which single deliveries of an arbitrary message end the conversation: those whose header names a key that is not the peer's present one, or makes both sides rotate; they part the two, and all others, and only those, leave the roots in step |
| RatchetDivergence.ForkIsFatal | client/lib/core/crypto/double_ratchet.dart:127-198 | after one such delivery, however the run goes on and whatever messages either side is handed, nothing encrypted under a sender key made later is ever decrypted by the other side |
| RatchetDivergence.ForbiddenForks | client/lib/core/crypto/double_ratchet.dart:127-136 | every crossing, stale or own message that is not refused is such a delivery |
| RatchetDivergence.ForbiddenIsFatal | client/lib/core/crypto/double_ratchet.dart:127-198 | so one crossing, stale or own delivery ends the conversation for both sides |
| RatchetDivergence.FirstMessagesCross | client/lib/core/crypto/double_ratchet.dart:59-66 | three allowed steps reach such a delivery: each side sends first, one message arrives |
| SessionManager.CryptoSessionManager.EstablishSession | client/lib/core/crypto/session_manager.dart:111-130 | with a key bundle whose identity is new or the pinned one, the new session is in memory and in storage; otherwise an error, and no session changes; a first identity is pinned |
| SessionManager.CryptoSessionManager.LoadOrThrow | client/lib/core/crypto/session_manager.dart:132-142 | memory first, then storage, else an error that changes nothing |
| SessionManager.CryptoSessionManager.Encrypt | client/lib/core/crypto/session_manager.dart:149-154 | the message returned belongs to a state already in storage |
| SessionManager.CryptoSessionManager.Decrypt | client/lib/core/crypto/session_manager.dart:156-161 | a success is stored; a failure leaves storage alone though memory has moved |
| SessionManager.CryptoSessionManager.ResetSession | client/lib/core/crypto/session_manager.dart:167-170 | the conversation is gone from memory and storage, others are not |
| CrashSafety.MessageKeysUnique | client/lib/core/crypto/session_manager.dart:132-161 | over every run of both sides with crashes at any point, arbitrary messages and failed decrypts, no two messages ever returned by encrypt share a key in either layer |
| CrashSafety.RestartsInvisible | client/lib/core/crypto/session_manager.dart:132-161 | on one device, restarts between successful operations change no later result, whatever the messages |
| CrashSafety.CompletedEncrypt | client/lib/core/crypto/session_manager.dart:149-154 | an encryption of the session manager that is not cut off is the step with fate `Completed` of the crash model |
| CrashSafety.CompletedDecrypt | client/lib/core/crypto/session_manager.dart:156-161 | so is a decryption, successful or not |
| CrashAgreement.AgreementSurvivesCrashes | client/lib/core/crypto/session_manager.dart:132-161 | over every run of the pair with crashes at any point of any operation, every allowed delivery gives the plaintext encrypted; a decrypt cut off before its write did not happen, an encrypt cut off after it is a lost message |
| CrashAgreement.StepInStep | client/lib/core/crypto/session_manager.dart:132-161 | every step, completed or cut off, keeps memory equal to storage and the two devices in step |
| SenderKeys.SenderKeyState.StepAndGetMessageKeys | client/lib/core/crypto/sender_keys.dart:25-33 | keys of the present position; chain and counter move by one |
| SenderKeys.EncryptWith | client/lib/core/crypto/sender_keys.dart:45-51 | the ciphertext carries the iteration whose keys sealed it |
| SenderKeys.DecryptWith | client/lib/core/crypto/sender_keys.dart:53-63 | result and new state for any iteration, older ones included; the loop ends |
| SenderKeys.GroupDeliveryExactly | client/lib/core/crypto/sender_keys.dart:53-63 | the state stays on the sender's chain at its counter whatever arrives, and a genuine message opens if and only if its iteration is not behind |
| SenderKeys.OtherGenerationFails | client/lib/core/crypto/group_session_manager.dart:122-124 | messages of another generation of the key never open |
| SenderKeys.GroupAgreement | client/lib/core/crypto/sender_keys.dart:25-63 | a sequence of genuine messages all decrypts if and only if its iterations strictly increase, any gaps allowed |
| GroupSessions.GroupSessionManager.EnsureKx | client/lib/core/crypto/group_session_manager.dart:28-54 | the pair's session from memory, storage or a new bootstrap, and cached; a first identity key is pinned, also for later; without a key bundle, or with one that is not the pinned key, nothing changes |
| GroupSessions.GroupSessionManager.RekeyAndDistribute | client/lib/core/crypto/group_session_manager.dart:116-144 | a new own key in any case, and one encrypted distribution for each member in order, up to the first out of reach; the session with every member reached is in storage as it is in memory |
| GroupSessions.GroupSessionManager.HandleDistribution | client/lib/core/crypto/group_session_manager.dart:146-162 | a readable distribution replaces the sender's state; an unreadable one, a missing key bundle or a changed identity key leaves all sender keys alone |
| GroupSessions.ReceivedStored | client/lib/core/crypto/group_session_manager.dart:87-92 | a failed decryption leaves storage alone, a successful one is stored, other sessions are untouched |
| GroupSessions.GroupSessionManager.EncryptForCall | client/lib/core/crypto/group_session_manager.dart:80-85 | a call signal goes out under the pair's existing session, stored before it is returned; without a session an error |
| GroupSessions.GroupSessionManager.DecryptForCall | client/lib/core/crypto/group_session_manager.dart:87-92 | the same for incoming signals |
| GroupSessions.GroupSessionManager.Restore | client/lib/core/crypto/group_session_manager.dart:96-108 | the own key and those of the members listed are read back from storage, when there; no other changes |
| GroupSessions.GroupSessionManager.Encrypt | client/lib/core/crypto/group_session_manager.dart:164-173 | without an own key an error, else the chain moves and is stored before the message is returned |
| GroupSessions.GroupSessionManager.Decrypt | client/lib/core/crypto/group_session_manager.dart:175-181 | without a key nothing, else the new state, stored unless decryption failed |
| GroupSessions.DistributeReachesEach | client/lib/core/crypto/group_session_manager.dart:126-143 | for distinct members, each one reached gets a message under that pair's own session, which moves by exactly one, in memory and in storage |
| GroupSessions.DistributeStopsAt | client/lib/core/crypto/group_session_manager.dart:126-143 | the members reached are exactly those before the first whose session can be neither found nor established |
| GroupSessions.DistributePersists | client/lib/core/crypto/group_session_manager.dart:126-143 | after a distribution the session with every member reached is in storage as it is in memory, however often a member is listed |
| GroupSessions.DistributeKeepsPins | client/lib/core/crypto/group_session_manager.dart:28-54 | trust on first use over a whole distribution: no pinned key changes, only members listed are pinned, and who is established is established under the key pinned for it |
| GroupSessions.SenderStaysOnChain | client/lib/core/crypto/group_session_manager.dart:164-173 | everything a member encrypts is genuine for its generation |
| GroupSessions.DistributedGroupAgreement | client/lib/core/crypto/group_session_manager.dart:116-181 | across both layers: a distribution delivered by any allowed ratchet run installs the state in it, and then genuine messages all decrypt if and only if their iterations strictly increase and are none of them behind it |
| GroupRestarts.Perform | client/lib/core/crypto/group_session_manager.dart:28-162 | what the manager's methods do to the pairwise sessions is the operation of the model of its whole life |
| GroupRestarts.PairwiseKeysUnique | client/lib/core/crypto/group_session_manager.dart:28-162 | over the whole life of a manager, in any groups, with restarts anywhere between operations and arbitrary messages coming in, no two pairwise messages it ever returns share a key in either layer |
| GroupRestarts.PerformSender | client/lib/core/crypto/group_session_manager.dart:96-173 | the same link for the own sender keys |
| GroupRestarts.GroupKeysUnique | client/lib/core/crypto/group_session_manager.dart:96-173 | over every run of renewals, sends, restarts and restores no two group messages a member returns share a key in either layer |
| Padding.EncodeFrame | backend/internal/ws/padding.go:20-36 | 2048 bytes carrying the payload, or an error for more than 2045 bytes |
| Padding.DummyFrame | backend/internal/ws/padding.go:38-45 | 2048 bytes that decode to nothing |
| Padding.DecodersAgree | client/lib/core/network/padding.dart:40-49 | the Dart decoder accepts exactly what the Go side accepts as real, with the same content, on every byte string |
| Padding.DecodeInverts | backend/internal/ws/padding.go:20-60 | decoding an encoded piece gives the piece, whatever the random filling |
| Padding.FrameLayout | backend/internal/ws/padding.go:20-36 | the frame byte by byte: 2048 bytes; flags 1 or 3, a two-byte big-endian length, the payload, filling |
| Padding.DecodeLayout | client/lib/core/network/padding.dart:40-49 | what is decoded, byte by byte: a frame of 2048 bytes with the lowest flag bit and a length up to 2045 |
| Padding.EncodeInverts | backend/internal/ws/padding.go:47-60 | every frame that decodes is the encoding of what it decodes to, but for the six unused flag bits |
| Padding.SplitIntoFrames | backend/internal/ws/padding.go:62-84 | the frames carry the fragments of the message in order; the empty message is one empty real frame |
| Padding.PiecesCount | client/lib/core/network/padding.dart:51-59 | a message of L bytes has exactly ceil(L/2045) fragments |
| Transport.RoundTrip | backend/internal/ws/conn.go:38-108 | conservation in every run of sends and ticks: the non-empty messages sent are those received, the one under way and those queued, in order |
| Transport.EmitsFragments | backend/internal/ws/conn.go:43-72 | the real frames emitted are the fragments of the messages in order, with dummies in between |
| Transport.TickReducesBacklog | client/lib/core/network/ws_client.dart:136-157 | each tick takes exactly one off the backlog, and is a dummy when nothing is under way |
| Transport.DrainsExactly | client/lib/core/network/padded_socket.dart:55-69 | the pump is empty after n ticks if and only if n is at least the backlog |
| Transport.MessageFrames | backend/internal/ws/conn.go:43-72 | a non-empty message leaves as ceil(L/2045) consecutive real frames, its fragments |
| Connections.Conn.Send | backend/internal/ws/conn.go:32-43 | queued while fewer than 4096 wait, dropped otherwise |
| Connections.Conn.WriteTick | backend/internal/ws/conn.go:51-71 | one 2048-byte frame per tick, decoding to the pump's next piece or to a dummy |
| Connections.Conn.ReadMessage | backend/internal/ws/conn.go:86-106 | any WebSocket message of any size: text, wrong sizes, corrupt and dummy frames are ignored, the rest assembled |
| Connections.WsClient.Open | client/lib/core/network/ws_client.dart:83-114 | a reconnect keeps the half-sent message, the queue and the assembly; a failed handshake replaces the channel all the same and asks for a retry unless closed |
| Connections.WsClient.Close | client/lib/core/network/ws_client.dart:171-176 | the pump stops, the sink and the stream of messages close; that no later handshake starts the pump again is in `Open` |
| Connections.WsClient.Send | client/lib/core/network/ws_client.dart:166-169 | queued unless the node is flagged |
| Connections.WsClient.OnTick | client/lib/core/network/ws_client.dart:136-157 | the same pump as the server's |
| Connections.WsClient.HandleFrame | client/lib/core/network/ws_client.dart:116-134 | the same reassembly as the server's; a message completed after the client was closed is dropped |
| Reframing.ChunkingInvariance | client/lib/core/network/padded_socket.dart:37-53 | any split of a byte stream gives the messages and the residue of the whole, and the residue is under 2048 bytes |
| Reframing.EndToEnd | client/lib/core/network/padded_socket.dart:30-69 | any run of sends and ticks, its frames cut into any chunks: the receiver has exactly the non-empty messages, but for those still in the pump |
| Reframing.LeftoversPrefix | client/lib/core/network/ws_client.dart:116-125 | what an earlier connection left in the assembly is glued to the front of the next message and then gone; that message is handed over as it was sent if and only if there was nothing left |
| Reframing.PaddedSocket.HandleBytes | client/lib/core/network/padded_socket.dart:37-53 | the loop ends and does what feeding the bytes means |
| Reframing.PaddedSocket.OnTick | client/lib/core/network/padded_socket.dart:55-69 | one frame per tick unless closed |
| TransferFraming.ReadInvertsWrite | client/lib/core/transfer/transfer_crypto.dart:42-58 | reading gives back the frame written, whatever follows, if and only if its length fits 32 bits |
| TransferFraming.WriteLayout | client/lib/core/transfer/transfer_crypto.dart:42-47 | four length bytes, the highest first, and then the frame |
| TransferFraming.ChunksReadAlike | client/lib/core/transfer/transfer_crypto.dart:49-58 | reading as bytes arrive, in any chunks, is reading the whole |
| TransferFraming.TransferRoundTrip | client/lib/core/transfer/transfer_crypto.dart:42-58 | frames written, cut anywhere, are read back in order with nothing left |
| TransferFraming.FrameBuffer.TryReadFrame | client/lib/core/transfer/transfer_crypto.dart:49-58 | the first complete frame and the rest, or nothing and the buffer unchanged |
| Hub.ConnHub.Append | backend/internal/ws/hub.go:42 | append in place or into a larger array: the slice grows by one either way |
| Hub.ConnHub.Register | backend/internal/ws/hub.go:40-44 | the registry gains the connection at the end of its user's list, others untouched although arrays are shared and reused |
| Hub.ConnHub.Unregister | backend/internal/ws/hub.go:46-59 | the first occurrence leaves; an emptied user loses its key |
| Hub.ConnHub.LocalConns | backend/internal/ws/hub.go:61-71 | a new array, outside the registry, with the user's connections |
| Hub.RegistryIsLive | backend/internal/ws/hub.go:40-59 | after any sequence of operations a user's list is exactly the connections not yet unregistered, in order, and a key exists exactly when the list is non-empty |
| Hub.RunOps | backend/internal/ws/hub.go:40-59 | over any sequence of operations the arrays hold exactly what the registry says, and no snapshot taken before changes, although removals shift arrays in place |
| Hub.SnapshotSurvives | backend/internal/ws/hub.go:40-71 | over a whole life of a hub, a snapshot taken anywhere is the connections alive then and stays so, and the lists are those alive at the end |
| Hub.Deliver | backend/internal/ws/hub.go:77-91 | every local connection of the recipient and no other gets the envelope; published exactly when there is none |
| OfflineQueue.OfflineQueue.Enqueue | backend/internal/relay/offline_queue.go:42-57 | the id returned is the one stored; other conversations are untouched |
| OfflineQueue.OfflineQueue.ForConversation | backend/internal/relay/offline_queue.go:59-73 | the entries that unmarshal, in order, the list left in place |
| OfflineQueue.OwnEntriesReadable | backend/internal/relay/offline_queue.go:42-73 | what was enqueued is read back entry by entry |
| OfflineQueue.ReadableAppends | backend/internal/relay/offline_queue.go:59-73 | reading is entry by entry: what is read of two lists in a row is what is read of each |
| OfflineQueue.ReadableOne | backend/internal/relay/offline_queue.go:59-73 | an entry that unmarshals gives its envelope, any other nothing |
| OfflineQueue.PushedAllIsTail | backend/internal/relay/offline_queue.go:51-53 | trimming at every push keeps exactly the last 500 of everything ever pushed |
| RelayHandler.Handler.HandleInbound | backend/internal/relay/relay.go:67-118 | direct envelopes, call signals and avatars go once to every connection of the one user named and are published when there is none, for a direct one always, otherwise if and only if the membership check works and the sender is a member; other kinds do nothing; a message is queued and goes out only after that |
| RelayHandler.Handler.DeliverOffline | backend/internal/relay/relay.go:135-145 | the channel holds the queues of the conversations in order, up to its 4096 places; nothing when the conversations cannot be listed, and a queue that cannot be read is skipped |
| RelayHandler.AnsweringAppends | backend/internal/relay/relay.go:135-145 | whether one queue can be read has no bearing on the others |
| RelayHandler.AnsweringOne | backend/internal/relay/relay.go:135-145 | a conversation is replayed if and only if its queue can be read |
| RelayHandler.MessageReachesOthersOnce | backend/internal/relay/relay.go:89-117 | a member's message is sent once to each connection of each other member, addressed to that member, and to no one else; when a call fails, to no one |
| RelayHandler.MessagePublishedOnce | backend/internal/relay/relay.go:89-117 | a member's message is published once for each other member without a connection on the node, and for no one else; when a call fails, for no one |
| Relay.NothingFallsBetween | backend/internal/relay/relay.go:56-146 | in every interleaving of senders, connecting devices, pumps and disconnections, once fan-out and replay are over a message is on every registered connection of every other member, unless it found the channel full, or it was there before the connection and 500 came after it |
| Relay.StepKeeps | backend/internal/relay/relay.go:56-146 | every single step keeps each owed message put, still to be fanned out, or still to be replayed |
| Relay.IdsUnique | backend/internal/relay/offline_queue.go:42-45 | generated ids being new, which is assumed of every enqueue, and senders leaving ids to the relay, all ids of a run are distinct, so each message is put for itself |
| RelaySoundness.OnlyMembersAreSent | backend/internal/relay/relay.go:92-117 | in every run a connection is sent only messages enqueued by members of its user's conversations, unaltered and addressed to its user |
| RelaySoundness.FanOutCanFinish | backend/internal/relay/relay.go:110-117 | from every reachable state the fan-out can be run to its end, without blocking |
| RelaySoundness.ReplayCanFinish | backend/internal/relay/relay.go:135-145 | so can a replay |
| RelaySoundness.DeliveryCompletes | backend/internal/relay/relay.go:56-146 | from every state of every run there is a continuation that delivers a message to a connection it is owed to, with the same two exceptions |
| RelayRefinement.HandlerIsARun | backend/internal/relay/relay.go:67-118 | from any state of any run, the enqueue of a message followed by its fan-out without interruption does to the queues and to every channel exactly what `HandleInbound` does when every call works |
| RelayRefinement.ReplayIsARun | backend/internal/relay/relay.go:135-145 | so is `DeliverOffline` when every call works: the rest of a replay, run without interruption, puts on the channel what it does, and changes nothing else |
| MessageInbox.MessageInbox.Handle | client/lib/core/messaging/message_inbox.dart:32-56 | history, ratchet session and notification after any delivery; decrypt is called only for messages not stored |
| MessageInbox.HandledExactly | client/lib/core/messaging/message_inbox.dart:32-56 | what a delivery adds to the history: one record with the id, conversation, sender, decrypted text and time, not marked as own, if and only if the message is complete and readable, there is a session and the id is not there; and nothing else |
| MessageInbox.AtMostOnce | client/lib/core/messaging/message_inbox.dart:32-56 | over every sequence of deliveries each id occurs once, no record is lost, the list stays sorted |
| MessageInbox.DecryptedAtMostOnce | client/lib/core/messaging/message_inbox.dart:35-43 | once an id is stored or was decrypted, decrypt is not called for it again |
| MessageInbox.ExactlyOnce | client/lib/core/messaging/message_inbox.dart:32-56 | a message delivered once with what is needed to read it has exactly one record at every later moment |
| InboxAgreement.HandleFromPeer | client/lib/core/messaging/message_inbox.dart:32-56 | an allowed delivery of a text of the peer leaves exactly one record under its id, with the text the peer encrypted and the peer as sender, and the session where the run has it |
| InboxAgreement.AgainIsIgnored | client/lib/core/messaging/message_inbox.dart:35-37 | a text sent again does not reach the ratchet and adds nothing |
| InboxAgreement.HistoryIsWhatArrived | client/lib/core/messaging/message_inbox.dart:32-56 | end to end, over every run of a pair with losses, reordering and messages sent again: what one side has stored of the other is exactly the texts received, and the sessions are where they would be if nothing had been sent again |
| OwnReplay.OwnReplayed | backend/internal/relay/relay.go:135-145 | in every run, a user's own message that comes back fails to decrypt and, unless its skip is refused, parts the reader from its peer |
| OwnReplay.HandleOwn | client/lib/features/dm/dm_chat_screen.dart:192-214 | handling an own message that is not in the history under the id it comes back with, as none is that was stored under a local one, leaves the history as it was and the session parted from the peer's |
| ChatHistory.SortByTimestamp | client/lib/core/storage/chat_history_store.dart:61 | sorted, and a permutation |
| ChatHistory.ChatHistoryStore.Append | client/lib/core/storage/chat_history_store.dart:57-63 | one conversation changes, by at most the one record, up to the order of equal timestamps |
| ChatHistory.ChatHistoryStore.MergeAll | client/lib/core/storage/chat_history_store.dart:65-71 | the records with unseen ids are added, whatever the input |
| ChatHistory.ChatHistoryStore.ImportAll | client/lib/core/storage/chat_history_store.dart:81-86 | every conversation of the data is merged, no other changes |
| ChatHistory.AppendAddsOne | client/lib/core/storage/chat_history_store.dart:57-63 | unique ids and order are kept, nothing is lost, and the id is there afterwards |
| ChatHistory.MergeUniqueExactly | client/lib/core/storage/chat_history_store.dart:65-71 | ids stay unique if and only if the unseen part of the push repeats none |
| ChatHistory.MergeIsUnion | client/lib/core/storage/chat_history_store.dart:65-71 | on agreeing stores the merge is the union, so it is commutative and idempotent |
| ChatHistory.MergeIsJoin | client/lib/core/storage/chat_history_store.dart:65-86 | any sequence of pushes, repeated, reordered or stale, ends in the union |
| ChatHistory.MergeAssociates | client/lib/core/storage/chat_history_store.dart:65-71 | merging is associative |
| BackgroundSync.BackgroundSyncService.BuildMessageManifest | client/lib/core/sync/background_sync_service.dart:116-125 | the latest timestamp of every non-empty conversation |
| BackgroundSync.BackgroundSyncService.ComputePush | client/lib/core/sync/background_sync_service.dart:127-135 | for each conversation the messages newer than the manifest, when there are any |
| BackgroundSync.BackgroundSyncService.HandleManifest | client/lib/core/sync/background_sync_service.dart:146-155 | the answer to one device's manifest, when there is any, goes to every connection |
| BackgroundSync.BackgroundSyncService.HandlePush | client/lib/core/sync/background_sync_service.dart:156-161 | the push is imported |
| BackgroundSync.QuietExactly | client/lib/core/sync/background_sync_service.dart:127-149 | a manifest gets no answer if and only if no conversation here is later than there |
| BackgroundSync.Fixpoint | client/lib/core/sync/background_sync_service.dart:116-155 | an exchange is quiet both ways if and only if the latest timestamps agree everywhere |
| BackgroundSync.OnePush | client/lib/core/sync/background_sync_service.dart:127-161 | the receiver ends with its own messages and the sender's that are newer than its latest |
| BackgroundSync.OnePushSuffices | client/lib/core/sync/background_sync_service.dart:127-161 | one push gives the receiver all the sender has if and only if all it lacks is newer than its latest |
| BackgroundSync.AnyPush | client/lib/core/sync/background_sync_service.dart:127-161 | what a device ends with that imports an answer to another one's manifest |
| BackgroundSync.ForeignPushHarmlessExactly | client/lib/core/sync/background_sync_service.dart:146-161 | such an answer costs a third device nothing its own answer would have brought, if and only if the sender has no message, missing there, newer than all there but not newer than all the asking device has, while it does have something newer than that |
| BackgroundSync.StrandedForGood | client/lib/core/sync/background_sync_service.dart:116-161 | a message lost that way is in no answer anybody ever gives to that device's manifest, whatever it imports from then on |
| BackgroundSync.ExchangeReachesFixpoint | client/lib/core/sync/background_sync_service.dart:116-163 | one push each way, the second answering the updated store, leaves both sides quiet |
| BackgroundSync.ConvergesExactly | client/lib/core/sync/background_sync_service.dart:116-163 | after such an exchange the two histories are equal if and only if one side had extended the other by newer messages only |
| NodeTrustMonitor.Monitor.BindNode | client/lib/core/network/node_trust_monitor.dart:29-38 | counters restart; the flag is cleared for a new node only |
| NodeTrustMonitor.Monitor.OnRawFrame | client/lib/core/network/node_trust_monitor.dart:46-70 | the counters and the flag after a frame of any size |
| NodeTrustMonitor.Monitor.OnEnvelope | client/lib/core/network/node_trust_monitor.dart:72-76 | an unknown type flags at once |
| NodeTrustMonitor.CompromisedExactly | client/lib/core/network/node_trust_monitor.dart:29-86 | over every trace the flag is set if and only if, since the last bind to a new node, a type was unknown, or one connection had five wrong sizes in a row or five pauses over 2 s in a row between right-size frames |
| NodeTrustMonitor.ReasonExactly | client/lib/core/network/node_trust_monitor.dart:29-86 | over every trace the reason given is what made it suspicious for the first time since the last bind to a new node; a trusted node has none |
| RateLimit.PerIP.Handle | backend/internal/ratelimit/ratelimit.go:12-37 | counter and verdict of one request; other addresses untouched; all served while Redis is down |
| RateLimit.ServedExactly | backend/internal/ratelimit/ratelimit.go:19-34 | for every arrival sequence a request is served if and only if it is among the first `limit` of its window; a window opens with the first request that comes a window's length or more after the one that opened the window before |
| RateLimit.ServedAfterPause | backend/internal/ratelimit/ratelimit.go:19-34 | so whoever stays away for the length of a window is served again |
| RateLimit.SlidingIntervalBound | backend/internal/ratelimit/ratelimit.go:19-34 | for every arrival sequence any half-open interval one window long admits at most 2 * limit - 1 requests |
| RateLimit.BoundIsSharp | backend/internal/ratelimit/ratelimit.go:19-34 | and an arrival sequence reaches that number |
| Calls.NoGlare | client/lib/core/calls/call_controller.dart:237-287 | whatever any number of parties do and receive, group offers go only from the smaller to the larger id, so no two ever cross |
| Calls.NoReoffer | client/lib/core/calls/call_controller.dart:274-287 | in every run, between two group offers of a party to one peer some step took the leg to that peer away |
| Calls.OffersAddLegs | client/lib/core/calls/call_controller.dart:274-287 | in every run a group offer goes to a peer without a leg, who has one afterwards, and only once in a step |
| Calls.CleanExactly | client/lib/core/calls/call_controller.dart:378-499 | a step leaves an idle controller without legs and local media if and only if it is not an offer with an inapplicable description taken while idle |
| Calls.IdleIsClean | client/lib/core/calls/call_controller.dart:481-499 | so in every run without such an offer taken while idle, idle means no legs and no local media |
| Calls.IdleWithALeg | client/lib/core/calls/call_controller.dart:398-402 | one such offer does leave an idle party a leg: the peer is stored before the description is applied |
| Calls.LessIsAsymmetric | client/lib/core/calls/call_controller.dart:268 | the tie-break never picks both sides |
| Calls.LessIsTotal | client/lib/core/calls/call_controller.dart:268 | and always picks one of two different ids |
| Calls.CallController.JoinGroupCall | client/lib/core/calls/call_controller.dart:245-272 | state, legs and every signal sent, in order; it breaks off at the first peer there is no session or no connection with; without media it stays connecting |
| Calls.CallController.StartCall | client/lib/core/calls/call_controller.dart:135-161 | one direct offer, or everything reset when media, connection or sending fails |
| Calls.CallController.AcceptCall | client/lib/core/calls/call_controller.dart:168-228 | announced group calls, direct offers, vanished peers, unknown groups, and failures of media, of connections and of sending |
| Calls.CallController.DeclineCall | client/lib/core/calls/call_controller.dart:230-235 | a hangup to the caller; reset when no leg is left |
| Calls.CallController.OfferTo | client/lib/core/calls/call_controller.dart:274-287 | nothing when there is a leg or no media; no leg either when the connection cannot be created |
| Calls.CallController.OnConnectionState | client/lib/core/calls/call_controller.dart:332-341 | a lost leg resets a direct call, not a group call |
| Calls.CallController.HangUp | client/lib/core/calls/call_controller.dart:344-353 | a hangup to every leg in order, then reset; it breaks off without a reset when sending throws |
| Calls.CallController.HandleSignal | client/lib/core/calls/call_controller.dart:378-443 | state, legs, answers and failures for every kind of signal, dropped offers and connections that cannot be created included |
| CallScenarios.JoinReachesAll | client/lib/core/calls/call_controller.dart:245-272 | joining with media, every member reachable: each is announced to as often as listed, each of larger id without a leg is sent exactly one group offer and has a leg, and nothing else is sent |
| CallScenarios.AcceptReachesAll | client/lib/core/calls/call_controller.dart:168-204 | the same for accepting an announced call |
| CallScenarios.TwoConnect | client/lib/core/calls/call_controller.dart:245-287 | whichever of two parties enters second, once announcement, offer and answer are handled each has a leg to the other |
| CallScenarios.AnnouncementBreaksOff | client/lib/core/calls/call_controller.dart:262-272 | when a member cannot be reached the announcements end there and nothing is offered |
| CallScenarios.OffersBreakOff | client/lib/core/calls/call_controller.dart:267-287 | offers go on up to the first that fails, and whoever is larger and listed before has a leg |
| CallScenarios.NoMediaNoCall | client/lib/core/calls/call_controller.dart:168-260 | without media, or for an unknown group, nothing is sent and no leg is added |
| CallScenarios.StartExactly | client/lib/core/calls/call_controller.dart:135-161 | starting a call rings the peer with one offer, or leaves all at rest when there are no media, no connection or no session |
| CallScenarios.AcceptExactly | client/lib/core/calls/call_controller.dart:206-228 | accepting an offer answers it, waits for a caller who is gone, or leaves all at rest |
| CallScenarios.DirectConnects | client/lib/core/calls/call_controller.dart:135-228 | a direct call that is accepted connects: both active, each with a leg to the other, one offer and one answer sent |
| CallScenarios.DeclineExactly | client/lib/core/calls/call_controller.dart:230-235 | declining tells the caller and drops its leg only; nothing but the conversation changes when it cannot be told |
| CallScenarios.DeclineEndsBoth | client/lib/core/calls/call_controller.dart:230-235 | a declined call leaves both at rest |
| CallScenarios.HangUpEndsBoth | client/lib/core/calls/call_controller.dart:344-353 | when one party of a direct call hangs up both are at rest |
| CallScenarios.HangUpTellsAll | client/lib/core/calls/call_controller.dart:344-353 | hanging up tells every leg once and leaves the party at rest, when all can be reached |
| CallScenarios.LegLostExactly | client/lib/core/calls/call_controller.dart:332-341 | a leg that fails is taken out and no other; a direct call without legs is over, a group call goes on |
| CallScenarios.HangupExactly | client/lib/core/calls/call_controller.dart:438-442 | the same when a peer hangs up, but then a group call without legs is over, too |
| CallScenarios.BadDescription | client/lib/core/calls/call_controller.dart:389-422 | when a description cannot be applied the handler throws: an answer has changed nothing, an offer has added its leg unless its connection failed, too |
| CallScenarios.OtherCallsIgnored | client/lib/core/calls/call_controller.dart:378-391 | offers and announcements of another conversation change nothing during a call |

## Left out

- Real cryptography (X25519, HKDF, HMAC, AES-GCM, ChaCha20-Poly1305, Argon2id), JSON and base64: replaced by terms and values; malformed headers and ciphertext layouts are not modelled.
- Interleaving of two operations on one session at `await` points; each is atomic.
- Ratchet.RatchetSession.FromStored: a stored session has its remote key and both chain keys, as `init` sets them.
- Ratchet.RatchetSession.Decrypt: a session always has its three keys, as after `init`; the null checks for a session before it are not modelled.
- CrashSafety.MessageKeysUnique: speaks of one pair of sessions from one `init`; establishing again with the same passphrase and identities starts the same chains again.
- RatchetAgreement.Agreement: takes only the peer's messages; what others do to a session is `RatchetDivergence.SingleDeliveryExactly`, `RatchetExactness.BurnsAtMostOne` and `OwnReplay.HandleOwn`, for the session in memory (a failed decrypt is not stored until something else is).
- SessionManager.CryptoSessionManager.EstablishSession: loading or generating the own identity and deriving the bootstrap secret are inputs.
- GroupSessions.GroupSessionManager.EnsureKx: the key bundles that can be fetched, and the secret derived from the passphrase, are inputs; the pins, which direct sessions share, are a field of their own here.
- GroupSessions.GroupSessionManager.Decrypt: sender states are values in maps, not shared objects, so a state changed in place in memory but not yet stored appears as a second map.
- GroupSessions.DistributedGroupAgreement: the group's ratchet runs are those of the pair.
- GroupRestarts.PairwiseKeysUnique: a secret derived for one session is assumed to be no other's; a process killed within an operation is not modelled.
- Relay.NothingFallsBetween: one node, fixed membership, no 14-day expiry, no Redis or database errors; when a user has connections on several nodes delivery by `Deliver` does not cover the others, and publishing is modelled only back to this node; two equal messages to which a sender gave one id are one value.
- RelayHandler.Handler.HandleInbound: marshalling is a parameter; a Redis transaction that fails has stored nothing.
- Connections.WsClient.HandleFrame: the JSON decoder and the bandwidth counter behind it.
- RateLimit.SlidingIntervalBound: INCR and EXPIRE are one step; a crash between them leaves a counter that never expires.
- NodeTrustMonitor.Monitor.OnEnvelope: storing the flag and notifying listeners; the reason is a tag instead of a text.
- ChatHistory.SortByTimestamp: the order of equal timestamps is left open, because Dart's sort is not stable.
- BackgroundSync.BackgroundSyncService.HandleManifest: the encryption of the answer.
- Calls.CallController.HandleSignal: a party's own id is what its store says; signals that do not decrypt change nothing but that id; setting up a call's media, creating a connection and applying a description may fail, no other media call; encryption of a signal fails without conversation or group and for peers outside a set given to each handler.
- Calls: telling the screens of an incoming call, media, ICE candidates, screen share, muting and audio levels; that a full mesh is always reached is not claimed, as answering a ringing call announces to no one.
- HTTP handlers, tokens, password hashing, prekeys, conversation creation, screens, notifications and device transfer beyond its framing: thin wrappers and user interface.
