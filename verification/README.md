# Winkd Messenger: a verified model

This project models the parts of Winkd Messenger that are state machines and proves what they keep.

**The session** (`packages/core/src/encryption/`). Two devices hold a ratchet session each, opened with X3DH, and
exchange envelopes over a network that delays, drops and reorders. Keys are symbolic: a Diffie-Hellman secret is the
unordered pair of its two key pairs, the two key derivation functions are free constructors, and a ciphertext opens
under its own key only. `Crypto` and `Ratchet` are the functions on values; `SessionManager` is the source's own form
(session objects changed in place, the skip loop, a copying and an aliasing store) proved against them. `TwoParty`
runs both devices and proves the two-party invariant; `Secrecy`, `Conservation`, `Confluence` and `Scope` say what
follows from it and what does not hold without the delivery assumptions, `StoreSecrecy` what a copy of the whole key
store gives away. `Witness` gives a run that meets the situation `Scope` is about. `Authentication` says what the X3DH
secret rests on and so who can have sent a first message. `Peers` is one device with several peers: calls for one never
move another's record, and each conversation goes on as if it were alone.

The delivery assumptions are those the code needs: one side initiates, a packet is not consumed twice, and none of a
superseded chain is delivered. `Scope.AssumptionsExact` shows that a stored record stays in step with the conversation
exactly when the last two hold for the packet at hand, and `Aftermath` what follows when they do not. A run also takes
each call on a peer as one step. The code does not ensure that: it waits between loading a record and storing it.
`Overlap` makes these separate steps and proves that the message keys of `encrypt` calls are unique exactly when no
two of them overlap; `Interleaved` has both kinds of call, in any interleaving.

**The relay** (`server/src/router.rs`, `server/src/db.rs`). `Relay` has every atomic step of the socket and message
handlers: registration, drain, replay, forwarding, lookup, push, queue insert, echo, cleanup, abort. `RelaySafety`
proves what holds in every interleaving, `RelayOrder` that its channels keep their order, `RelayOvertaking` exactly
when the messages of a sender do, `RelayQueue` that the offline queue is first in, first out up to the socket. `Router`
is the server in place, with whole handlers and two runs that show what is not promised. `ChatStore` is the client that
merges what arrives, and `ChatContent` says field by field what a message is after any run of events.

**Contacts, blocks and the buddy cap** (`Contacts`, `ContactHistory`, `BuddyCap`): `ContactHistory` reads every row,
block and roster entry off the history of commands. **Supporter webhooks** (`Webhook`), **one-time pre-keys**
(`PreKeys`), the **rate limiter** (`RateLimit`), and the **encodings and safety numbers** (`Encoding`, `SafetyNumber`).

Where the code and what is written about it disagree, the model follows the code:

- Section 3.5 of the Double Ratchet specification tries the saved keys before the ratchet step. `decrypt` takes the
  ratchet step first (`session.ts:209`, then `session.ts:238`), so a late message of a superseded chain loses the
  session (`Scope.LateMessageLosesSession`), although the repository's README says such messages decrypt without
  breaking the ratchet chain.
- The same section discards all changes when a message does not authenticate. `decrypt` stores the record before it
  opens the box (`session.ts:255`, then `session.ts:257`), so what is stored depends on the header alone
  (`Aftermath.BoxNotConsulted`), and `Aftermath.StoredExactly` says when it is stored, for every record and header;
  `Aftermath.UnknownKeyExactly`, `Aftermath.BadBoxSpends` and `Aftermath.BadBoxRatchets` say what that costs.
- The comment on `count_roster` says it matches the rows of `list_contact_roster`. It counts blocked contacts too, and
  counts once a contact whom the roster lists in two rows (`Contacts.CountMatchesRoster`, `Contacts.OneRowEach`).
- The repository's README, on forward secrecy, speaks of today's keys. The claim holds for a copy of the session
  record; for a copy of the whole key store it fails for the first chain at the responder when no one-time key was
  used (`StoreSecrecy.ForwardSecrecyOfStore`).
- The comment on `create_contact_request` speaks of re-sending after a decline; an accepted row is reset as well
  (`Contacts.AskingAgain`).
- `delivered` in the echo means pushed to a channel. It is not a receipt (`Router.EchoIsNoReceipt`).

## Model

| member | source | states |
|---|---|---|
| TwoParty.OpeningInv | packages/core/src/encryption/session.ts:92-127 | after `initSessionFromBundle`, before anything is sent, the two stores satisfy the two-party invariant |
| TwoParty.StepInv | packages/core/src/encryption/session.ts:137-259 | every send and every delivery keeps the invariant: root keys on one path, each receiving chain the seed of a peer chain advanced `recvCount` times, saved keys exactly those passed and not consumed |
| TwoParty.ReachableInv | packages/core/src/encryption/session.ts:137-259 | the invariant holds after any run from any opening |
| TwoParty.EndToEnd | packages/core/src/encryption/session.ts:190-259 | in every run the next delivered packet comes out as its own plaintext, or is refused exactly when it is more than MAX_SKIP ahead, or finds no session; what fails leaves the receiver unchanged |
| TwoParty.MessageKeysUnique | packages/core/src/encryption/session.ts:148-174 | over a whole run of both parties, calls on one record not overlapping, no two `encrypt` calls use one message key and no two envelopes carry one header pair |
| Overlap.UniqueExactly | packages/core/src/encryption/session.ts:137-175 | with loading and storing the record as separate steps: over any run of `encrypt` calls the message keys, and the header pairs, are all different if and only if no call loaded the record while another was under way |
| Overlap.LostUpdateExactly | packages/core/src/encryption/session.ts:190-255 | a `decrypt` that stores over an `encrypt` begun on the same record makes the next `encrypt` repeat its header if and only if it took no ratchet step, and then its key as well |
| Interleaved.StepExactly | packages/core/src/encryption/session.ts:137-255 | from a state where nothing repeats, a step makes a message key, or a header pair, used twice or about to be, if and only if it stores a call without a ratchet step over an `encrypt` begun at the same place |
| Interleaved.UniqueExactly | packages/core/src/encryption/session.ts:137-255 | over every run of `encrypt` and `decrypt` calls on one record, in any interleaving of loads and stores: nothing is ever used twice or about to be if and only if no such store happens |
| Secrecy.DerivationsSound | packages/core/src/encryption/crypto.ts:126-189 | whatever an attacker derives in any number of steps is covered by the closed description of its knowledge |
| Derivability.DerivationsComplete | packages/core/src/encryption/crypto.ts:126-189 | and all that the description covers can be derived |
| Secrecy.ExposureExactly | packages/core/src/encryption/session.ts:209-253 | exactly which message keys of the conversation a stored record gives away |
| Secrecy.ForwardSecrecy | packages/core/src/encryption/session.ts:148-174 | the key of a message sent or consumed is not derivable from the record then stored and everything on the wire |
| Secrecy.BreakInRecovery | packages/core/src/encryption/session.ts:209-232 | a record copied at any time gives away no key of a chain two or more ratchet steps later, however the run goes on |
| StoreSecrecy.StoreExposureExactly | packages/core/src/encryption/keystore.ts:110-151 | exactly which message keys a copy of the whole key store gives away: those of the record and, at the responder without a one-time key, the initiator's first chain and, up to its second ratchet step, its own first |
| StoreSecrecy.ForwardSecrecyOfStore | packages/core/src/encryption/keystore.ts:110-151 | with the whole store copied the key of a message sent or consumed is known in one case only, stated exactly: the responder's store, no one-time key, the first chain or the responder's own first |
| StoreSecrecy.ConsumedKeysOfStore | packages/core/src/encryption/session.ts:287-304 | a key consumed by the responder is known from a copy of the store if and only if it is of the first chain and no one-time key was used |
| StoreSecrecy.PrivatesExactly | packages/core/src/encryption/keystore.ts:110-151 | the private keys in a copy of the store are the identity key and those of every pre-key kept, and no others |
| Conservation.RatchetAgreement | packages/core/src/encryption/session.ts:209-232 | with both sessions in place one record is exactly one ratchet step ahead of the other |
| Conservation.PassedSplits | packages/core/src/encryption/session.ts:235-253 | of the peer's messages on chains seen, those below the frontier are either consumed or saved under their own key, never both; those beyond are neither |
| Conservation.SavedIsUndelivered | packages/core/src/encryption/session.ts:267-279 | every saved key belongs to a message that was sent and is not yet consumed |
| Confluence.OrderIrrelevant | packages/core/src/encryption/session.ts:234-253 | two orders of the same messages of the current chain give each its plaintext and end in the same session, field by field |
| Confluence.LedgerDetermines | packages/core/src/encryption/session.ts:267-279 | the consumed messages and the frontier determine the saved keys |
| Scope.CurrentChainExactly | packages/core/src/encryption/session.ts:234-258 | a message of the current chain, repeated or not, opens exactly when it is not consumed and not too far ahead; a repeat shifts chain against counter |
| Scope.RepeatLosesChain | packages/core/src/encryption/session.ts:244-252 | after a repeat, no message the chain had not reached opens |
| Scope.LateMessage | packages/core/src/encryption/session.ts:209-242 | what a message of a superseded chain does, exactly: it opens if its key was saved, and the session has left the conversation |
| Scope.LateMessageLosesSession | packages/core/src/encryption/session.ts:209-232 | a late message that is not refused leaves a record whose root key is none of the conversation's |
| Scope.AstrayOpensNothing | packages/core/src/encryption/session.ts:209-258 | the next call on such a record opens no message of a chain it is not receiving on, but with a key saved before |
| Aftermath.StaysAstray | packages/core/src/encryption/session.ts:190-259 | a record whose root key has left the conversation never finds back, whatever headers and boxes it receives |
| Aftermath.LateLoses | packages/core/src/encryption/session.ts:209-242 | a late message that is stored leaves a record with neither root key nor receiving chain of the conversation |
| Aftermath.StaysLost | packages/core/src/encryption/session.ts:190-259 | whatever such a record receives it stays so, saves no key of the conversation, and opens nothing of it but with a key saved before |
| Aftermath.NothingAfterLateMessage | packages/core/src/encryption/session.ts:190-259 | however the conversation grows and whatever arrives after a stored late message, over a copying or an aliasing store: a message of the conversation opens only with a key that was in the record by then |
| Aftermath.BoxNotConsulted | packages/core/src/encryption/session.ts:255-257 | what the record becomes, and whether it is stored, does not depend on the box |
| Aftermath.StoredExactly | packages/core/src/encryption/session.ts:206-257 | for every record, header and box: the record is stored if and only if the key was saved or the numbers are in reach, and what is stored is never the record as it was |
| Aftermath.BadBoxSpends | packages/core/src/encryption/session.ts:234-258 | under the current ratchet key, a box that does not open leaves the record the genuine message would have left, and that message opens no more |
| Aftermath.BadBoxRatchets | packages/core/src/encryption/session.ts:209-258 | the same under the peer's next ratchet key: the ratchet step is taken and kept, and the genuine message opens no more |
| Aftermath.UnknownKeyExactly | packages/core/src/encryption/session.ts:209-255 | under a ratchet key that is none of the conversation's the record is stored if and only if neither number is too far ahead, and what is stored has left the conversation |
| Scope.ReplayedOpening | packages/core/src/encryption/session.ts:195-197 | a replayed opening message rebuilds the session; its plaintext comes out again exactly without a one-time key |
| Scope.AssumptionsExact | packages/core/src/encryption/session.ts:190-259 | a stored record is in step with the conversation if and only if the packet was not consumed before and its chain not superseded |
| Witness.LateMessageArises | packages/core/src/encryption/session.ts:137-259 | a run in which an undelivered message becomes one of a superseded chain |
| HandshakeAgreement.SecretsAgree | packages/core/src/encryption/crypto.ts:230-276 | `x3dh` and `x3dhRespond` agree if and only if the responder answers with the private keys addressed and both use the same one-time key or neither does, for all key material |
| Authentication.ClaimedKeysAgree | packages/core/src/encryption/crypto.ts:230-276 | on the word of an envelope about the initiator's keys, the secrets agree if and only if it names the identity and the ephemeral key the initiator really used |
| Authentication.SecretExactly | packages/core/src/encryption/crypto.ts:256-276 | whoever holds nothing derived from it can compute the responder's secret if and only if holding, of each of the three or four key pairings, one private key |
| Authentication.SecretOfInitiatorExactly | packages/core/src/encryption/crypto.ts:230-250 | the same for the initiator's computation |
| Authentication.OpenedByHolder | packages/core/src/encryption/session.ts:190-259 | whoever sealed a first message that opens can derive the secret the responder computes for it |
| Authentication.ForgedOpeningFails | packages/core/src/encryption/session.ts:195-259 | a first message in the name of an identity fails when its sender holds neither that identity's private key nor the responder's signed pre-key, whatever ephemeral key, header and text it carries |
| HandshakeAgreement.FirstMessageExactly | packages/core/src/encryption/session.ts:285-343 | whatever the responder's store holds: the first message opens, and the two records fit together, if and only if it holds the identity, the signed pre-key and the one-time key of the bundle; a missing signed pre-key is reported, a replaced one makes the box fail |
| Ratchet.SaveUpToEffect | packages/core/src/encryption/session.ts:267-279 | the skip loop in closed form: exactly the keys between counter and target, each the right one for its index |
| SessionManager.RatchetSession.SkipMessageKeys | packages/core/src/encryption/session.ts:267-279 | the loop in place: refused exactly more than MAX_SKIP ahead, otherwise the closed form, in at most MAX_SKIP chain steps |
| SessionManager.RatchetSession.RatchetStep | packages/core/src/encryption/session.ts:213-231 | the assignments of the ratchet step, in the source's order, give the step of the two-party model |
| SessionManager.RatchetSession.Retrieve | packages/core/src/encryption/session.ts:235-258 | finding the key and opening the box, in place, also where it fails half-way |
| SessionManager.RatchetSession.Receive | packages/core/src/encryption/session.ts:206-258 | the body of `decrypt` in place, in at most 2 MAX_SKIP + 1 chain steps |
| SessionManager.RatchetSession.Seal | packages/core/src/encryption/session.ts:143-176 | the body of `encrypt` in place: type 1 exactly for the initiator's first message |
| SessionManager.SignalSessionManager.InitSessionFromBundle | packages/core/src/encryption/session.ts:74-128 | refused on a bad signature or without an identity key; otherwise the initiator's record is stored |
| SessionManager.SignalSessionManager.Encrypt | packages/core/src/encryption/session.ts:137-183 | the store after `encrypt`, and the envelope |
| SessionManager.SignalSessionManager.Decrypt | packages/core/src/encryption/session.ts:190-259 | the store after `decrypt`; a type-2 envelope refused before a key is found leaves a copying store as it was |
| SessionManager.SignalSessionManager.InitSessionFromPreKey | packages/core/src/encryption/session.ts:285-343 | the responder's record, with the one-time key consumed, also in the store |
| Peers.InitFromBundleExactly | packages/core/src/encryption/session.ts:74-128 | a bundle is refused, changing nothing, if and only if its signature does not verify or there is no identity key; otherwise only the peer's record changes |
| Peers.EncryptKeeps | packages/core/src/encryption/session.ts:137-183 | refused exactly without a record or a sending chain, changing nothing; otherwise no other peer's record and no key moves |
| Peers.InitFromPreKeyKeeps | packages/core/src/encryption/session.ts:285-343 | refused exactly without the identity key or the signed pre-key addressed; no other peer's record moves and only the one-time key named may go |
| Peers.DecryptKeeps | packages/core/src/encryption/keystore.ts:145-150 | whatever the envelope, no other peer's record is gained, lost or changed, long-term keys stay and only the one-time key named may go |
| Peers.OthersNeverMove | packages/core/src/encryption/session.ts:74-259 | over any run of calls for others, the record of a peer stays as it was |
| Peers.ConversationsApart | packages/core/src/encryption/session.ts:74-259 | over any run of calls for many peers, the record of each is what its own calls alone lead to, if no other's envelopes name a one-time key its envelopes name |
| SessionManager.IndexedDbKeyStore.LoadSession | packages/core/src/encryption/keystore.ts:145-147 | a loaded record is a new object with the stored value |
| SessionManager.InMemoryKeyStore.Decrypt | packages/core/src/encryption/keystore.ts:161-180 | over the aliasing store the record changes even when the call is refused, for both envelope types |
| SessionManager.BoundedGrowth | packages/core/src/encryption/session.ts:206-253 | one call saves at most 2 MAX_SKIP keys, for any record and any header |
| SessionManager.RefusalInPlace | packages/core/src/encryption/session.ts:206-253 | with an aliasing store a refused call leaves the record unchanged if and only if it is refused before the ratchet step |
| Encoding.HexToBuf | packages/core/src/encryption/crypto.ts:32-38 | the loop fills the buffer with the parsed pairs, odd length included |
| Encoding.HexRoundTrip | packages/core/src/encryption/crypto.ts:28-38 | bytes survive hex and back |
| Encoding.ByteReads | packages/core/src/encryption/crypto.ts:28-30 | of the two digits of a byte the first is the more significant |
| Encoding.AnyCaseReads | packages/core/src/encryption/crypto.ts:28-38 | hex digits of either case read alike: an even number of them comes back in lower case |
| Encoding.TextRoundTrip | packages/core/src/encryption/crypto.ts:28-38 | a text survives bytes and back if and only if it is an even number of lower-case digits |
| Encoding.ConcatBufs | packages/core/src/encryption/crypto.ts:40-49 | the loop of offsets gives the buffers one after another |
| Encoding.BlocksInjective | packages/core/src/encryption/crypto.ts:40-49 | concatenated blocks of one size determine the blocks |
| Encoding.SkippedIndexInjective | packages/core/src/encryption/session.ts:235-235 | `rk:n` strings are equal if and only if both parts are |
| SafetyNumber.BothHashTheSame | packages/core/src/encryption/crypto.ts:358-371 | both peers hash the same bytes if and only if their ids differ or their keys do not |
| SafetyNumber.BeforeExactly | packages/core/src/encryption/crypto.ts:364-371 | the ids are ordered by their first difference, or the shorter one comes first |
| SafetyNumber.DataInOrder | packages/core/src/encryption/crypto.ts:364-371 | from either side the smaller id and its key are hashed first, then the other's |
| SafetyNumber.ComputeDigits | packages/core/src/encryption/crypto.ts:373-383 | the loop over twelve groups |
| SafetyNumber.GroupReads | packages/core/src/encryption/crypto.ts:376-381 | a group shows five digits that read back as its value |
| SafetyNumber.GroupIs | packages/core/src/encryption/crypto.ts:376-381 | group `i` is the value of the five bytes from `5 * i`, most significant first, modulo 100 000 |
| SafetyNumber.JoinAt | packages/core/src/encryption/crypto.ts:373-383 | the groups stand six characters apart with a space between |
| SafetyNumber.NumberReads | packages/core/src/encryption/crypto.ts:373-383 | five digits of the number shown read back as the value of five bytes of the hash, for each of the twelve groups |
| SafetyNumber.NumbersDiffer | packages/core/src/encryption/crypto.ts:373-383 | a number has 71 characters, and two are equal if and only if all twelve groups are |
| SafetyNumber.PeersShowTheSame | packages/core/src/encryption/crypto.ts:358-383 | peers with different ids show the same number, whatever the hash function |
| Relay.StepConserves | server/src/router.rs:942-984 | no step of any handler creates, duplicates or loses track of a message; accepting one adds one |
| RelaySafety.StepInv | server/src/router.rs:249-408 | every step of every handler keeps the relay invariant |
| RelaySafety.ExactlyOnePlace | server/src/router.rs:942-984 | in every interleaving an accepted message is in exactly one place: in hand, in a channel, a row, being replayed, written, lost with a closed channel, or not queued |
| RelaySafety.EchoExact | server/src/router.rs:944-984 | the echo says delivered if and only if the message was pushed; what was not is queued, replayed or kept out of the queue |
| RelaySafety.RegistryExact | server/src/router.rs:249-256 | the registry entry is the most recent registration and absent if and only if that very session has cleaned up |
| RelaySafety.OnlyToRecipient | server/src/router.rs:942-957 | nothing is written to a connection of anyone but its recipient |
| RelaySafety.FreshIdsAllQueue | server/migrations/010_pending_messages.sql:26-28 | with fresh client ids the unique index turns nothing away |
| RelaySafety.DroppedOnlyWhenClosed | server/src/router.rs:367-373 | what is dropped was in a channel that is closed |
| RelayOrder.StepOrder | server/src/router.rs:367-373 | a step adds to the end of what passed through a channel exactly what it pushes there |
| RelayOrder.ChannelsAreFifo | server/src/router.rs:367-373 | in every interleaving what is written on a socket is the first part of what was pushed to its channel, in push order, and the rest is in the channel or was lost with it |
| RelayOvertaking.GoesAheadExactly | server/src/router.rs:250-332 | of two messages written on one connection, the one being pushed goes ahead of the other, accepted by then, if and only if that one is at that moment in hand, in the queue, or taken from it and not replayed |
| RelayOvertaking.OrderKeptExactly | server/src/router.rs:250-373 | over every run: the messages of each sender are written on a connection in the order of acceptance if and only if none was pushed there while an earlier one, written there too, was waiting |
| RelayOvertaking.OneSocketOrderExactly | server/src/router.rs:376-379 | for the messages of one sending connection, whose commands are handled in turn: order fails only through the queue or its replay: kept if and only if none was pushed while an earlier one was queued or taken from the queue |
| RelayQueue.TakenExactly | server/src/db.rs:912-927 | a row is taken by a drain if and only if it is queued for the user, and otherwise left |
| RelayQueue.TakenInOrder | server/src/db.rs:912-927 | of two rows taken, and of two rows left, the one queued first stands first |
| RelayQueue.JoinTakesInOrder | server/src/router.rs:326-364 | after an undisturbed connect a row is in the new channel if and only if it was queued for the user, and the row queued before another stands before it; the rows of others stay queued in their order |
| RelayQueue.QueuedInOrder | server/src/db.rs:887-927 | over every run: of two messages queued one after the other and taken by one drain, the first queued stands first when the drain takes them |
| RelayQueue.EarlierPushed | server/src/router.rs:326-364 | whatever runs in between, when a drained row is pushed the rows ahead of it have been |
| RelayQueue.QueueIsFifo | server/src/router.rs:326-373 | over every run: two messages queued one after the other, taken by one drain and written on its connection, are written in the order in which they were queued |
| Router.Server.Register | server/src/router.rs:248-256 | the registry insert of a new session |
| Router.Server.DrainPending | server/src/db.rs:912-927 | one statement takes all rows of the user, or none on an error |
| Router.Server.ReplayQueue | server/src/router.rs:326-364 | the loop over the drained rows leaves all of them in the channel, oldest first |
| Router.Server.Forward | server/src/router.rs:367-373 | the forwarding task sends the oldest message of the channel |
| Router.Server.ConnectQuietly | server/src/router.rs:248-373 | registration, drain and replay with nothing in between are their composition |
| Router.Server.CleanupSession | server/src/router.rs:389-402 | the entry is removed exactly when it is still this session's, and no other entry changes |
| Router.Server.AbortForwarding | server/src/router.rs:408-408 | the receiver goes away with whatever was not sent |
| Router.Server.PushLive | server/src/router.rs:944-957 | a push fails exactly when the receiver is gone, and then the message goes to the queue |
| Router.Server.QueuePending | server/src/db.rs:887-907 | one row, unless the database or the unique index refuses it |
| Router.Server.SendMessage | server/src/router.rs:942-985 | the handler from lookup to echo is the composition of its steps |
| Router.SendEffect | server/src/router.rs:942-985 | a message is live exactly when the recipient is registered with an open channel; otherwise it leaves one row unless refused |
| Router.SendKeeps | server/src/router.rs:942-985 | a whole command is a run of atomic steps |
| Router.JoinKeeps | server/src/router.rs:248-373 | a whole connect is a run of atomic steps |
| Router.JoinReplaysQueue | server/src/router.rs:248-373 | an undisturbed connect puts the user's whole queue in the new channel, oldest first, and leaves everyone else's rows |
| Router.EchoIsNoReceipt | server/src/router.rs:389-408 | a push between cleanup and abort is told delivered and never written |
| Router.LiveOvertakesQueued | server/src/router.rs:249-326 | a run in which a later message is written ahead of a queued one of the same sender |
| ChatStore.Store.SendMessage | apps/web/src/stores/chatStore.ts:75-96 | the optimistic append, also for a conversation that does not exist |
| ChatStore.Store.ReceiveMessage | apps/web/src/stores/chatStore.ts:169-189 | the merge by id and the rebuilt conversation record |
| ChatStore.Store.MarkMessageDelivered | apps/web/src/stores/chatStore.ts:191-207 | the receipt, and no change where the update throws |
| ChatStore.ExactlyOnce | apps/web/src/stores/chatStore.ts:57-209 | after any run of appends, echoes, deliveries, replays, receipts and openings, the sender's own ids fresh: each id met since the conversation was last replaced by an opening stands once, in the order the ids were first met |
| ChatStore.DistinctExactly | apps/web/src/stores/chatStore.ts:57-209 | in every run, ids are distinct if and only if the sender's own ids were fresh since the last such opening |
| ChatStore.FirstsInOrder | apps/web/src/stores/chatStore.ts:169-189 | the order of the ids is that of their first positions |
| ChatStore.ContentExact | apps/web/src/stores/chatStore.ts:57-209 | in every run with fresh ids each message is the merge of everything received under its id since then, receipts in between |
| ChatContent.LastEventWins | apps/web/src/stores/chatStore.ts:169-207 | in every run with fresh ids: sender, kind, time and the other fixed fields of a message are those of the last event that carried its id, and it is delivered if and only if that event said so or a receipt came after it |
| ChatContent.LastBringerWins | apps/web/src/stores/chatStore.ts:173-176 | in every run with fresh ids: an extra field of a message is that of the last event that brought it, and there if and only if some event did |
| ChatContent.CarriedLast | apps/web/src/stores/chatStore.ts:169-189 | every message of a conversation has a last event that carried it |
| ChatContent.ShakesExactly | apps/web/src/stores/chatStore.ts:169-219 | after any run a window shakes if and only if the last event that sets it was a winkd received |
| ChatStore.ReceiveIdempotent | apps/web/src/stores/chatStore.ts:169-189 | receiving a message again changes nothing |
| ChatStore.ReceiptCommutes | apps/web/src/stores/chatStore.ts:169-207 | a receipt and the merge of another message commute |
| ChatStore.OpenExactly | apps/web/src/stores/chatStore.ts:57-71 | opening a chat changes the messages of a conversation if and only if it replaces one that has messages while no record names the contact |
| ChatStore.OwnContactStays | apps/web/src/stores/chatStore.ts:57-209 | a record that names its own conversation does so for good, and is never replaced |
| ChatStore.UnwipedExactly | apps/web/src/stores/chatStore.ts:57-189 | in what the relay sends, a conversation is never replaced if and only if its chat is never opened after a message and before the buddy was heard first in it: a condition on the events alone |
| ChatStore.NeverOpenedLate | apps/web/src/stores/chatStore.ts:57-209 | then every id ever met stands once, at its first position, with all its content |
| ChatStore.EchoDoesNotSave | apps/web/src/stores/chatStore.ts:57-71 | a conversation that holds only one's own message and its echo is replaced when its chat is opened |
| Contacts.Directory.HandleAdd | server/src/router.rs:425-536 | the early returns and the upsert of AddContact |
| Contacts.Directory.HandleAnswer | server/src/db.rs:497-529 | a row changes exactly when it is addressed to the caller and pending |
| Contacts.Directory.HandleBlock | server/src/router.rs:655-660 | the block, then the clearing of what is pending, whose failure is only logged |
| Contacts.Directory.HandleUnblock | server/src/router.rs:743-771 | the caller's own block is removed, and nothing else |
| Contacts.StepWellFormed | server/migrations/002_contacts.sql:4-14 | every handler keeps request ids unique and rows and blocks between different users |
| Contacts.OneRowPerId | server/src/db.rs:497-529 | a request id names at most one row |
| Contacts.ClearExact | server/src/db.rs:580-596 | clearing turns down the pending rows of the pair and changes no other |
| Contacts.BlockExactly | server/src/router.rs:655-660 | a block between two users leaves a pending row between them if and only if there was one and clearing failed; any other block leaves the pair as it was |
| Contacts.StepApart | server/src/router.rs:648-660 | one command leaves a pending row between blocked users who had none if and only if it is a block between them that goes through, with a row to clear and the clearing failed |
| Contacts.ApartExactly | server/src/router.rs:648-660 | at every point of a run blocked users have no pending row between them if and only if no command of the run leaves one |
| Contacts.BlockedPairsApart | server/src/router.rs:474-487 | over every such run, while either blocks the other: no pending row, no request, acceptance or message between them, neither in the other's roster |
| Contacts.UnclearedAcceptance | server/src/router.rs:552-552 | acceptance does not look at blocks: an uncleared request can be accepted |
| Contacts.RosterIsCountedUnblocked | server/src/db.rs:429-462 | the roster's contacts are those the cap counts, without the blocked ones |
| Contacts.CountMatchesContacts | server/src/db.rs:993-1006 | the contacts of the roster are all the counted ones if and only if none of these is blocked |
| Contacts.OneRowEach | server/src/db.rs:429-462 | every counted contact has exactly one row in the roster if and only if none is blocked and none is listed twice |
| Contacts.CountMatchesRoster | server/src/db.rs:990-1006 | roster rows plus blocked counted contacts are the count plus the contacts listed twice |
| Contacts.ListedTwice | server/src/db.rs:429-462 | when a contact has two rows in the roster |
| Contacts.BlockThenUnblock | server/src/db.rs:550-596 | blocking and unblocking, whatever blocks there were, leaves the accepted contacts, turns down the pending requests, lifts the caller's own block and nothing the other has blocked |
| Contacts.AskingAgain | server/src/db.rs:390-405 | a second request resets the row; the asker stays in the other's roster only through the other's own request |
| ContactHistory.BlockedExactly | server/src/db.rs:550-578 | after any run one user blocks another if and only if she blocked him by a command that went through and has not unblocked him since; nobody else's commands play a part |
| ContactHistory.AcceptedByConsent | server/src/db.rs:390-512 | after any run a row is accepted if and only if its addressee accepted it and its sender has not asked again since |
| ContactHistory.PendingExactly | server/src/db.rs:390-596 | after any run a request is pending if and only if it was sent and has been neither answered by its addressee nor cleared by a block between the two since |
| ContactHistory.RowExactly | server/src/db.rs:390-405 | there is a row if and only if its sender ever asked |
| ContactHistory.RejectedExactly | server/src/db.rs:513-596 | a row is rejected if and only if it was asked for, settled since the last time, and not accepted since |
| ContactHistory.RosterExactly | server/src/db.rs:429-462 | after any run, whom the cap counts and whom the roster lists, as conditions on the commands given |
| ContactHistory.AddWithinCap | server/src/router.rs:452-472 | a request under a cap goes out only with room for it, refused as full if and only if there is none, and the cap still holds after it |
| ContactHistory.RequestGoesOutExactly | server/src/router.rs:425-536 | the outcome of a request after any run: to oneself, a full list, an unknown name, a block standing either way, or sent |
| ContactHistory.SentIdAnswers | server/src/router.rs:487-536 | the id sent out with a request is the one, and the only one, that answers it |
| ContactHistory.AnswerGoesThroughExactly | server/src/db.rs:497-529 | an answer, or a block by request id, goes through if and only if the request waits: sent, addressed to the caller, neither answered nor cleared since; otherwise nothing changes |
| ContactHistory.BlockGoesThroughExactly | server/src/router.rs:691-741 | a block by name goes through if and only if the name is another existing user's |
| ContactHistory.MessageAcceptedExactly | server/src/router.rs:909-922 | after any run a message is accepted if and only if the recipient exists and no block stands either way |
| BuddyCap.OthersNeverGrow | server/src/db.rs:390-512 | only the user's own requests add outgoing contacts |
| BuddyCap.StepInv | server/src/router.rs:452-487 | each step keeps room for every handler past its check, but for those that passed beside it, whatever the block check in between found |
| BuddyCap.CapOverRuns | server/src/router.rs:452-487 | outgoing contacts stay within 25 plus purchased slots plus the number of interleaved handlers less one |
| BuddyCap.CapWhenAtomic | server/src/db.rs:60-66 | when AddContact is atomic the cap holds as it stands |
| BuddyCap.CapIsTight | server/src/router.rs:452-487 | for every number of interleaved handlers and any purchased slots a run reaches the bound |
| Webhook.Ledger.RecordEvent | server/src/db.rs:1045-1072 | true exactly for the first delivery of an external id |
| Webhook.Ledger.Webhook | server/src/bmac.rs:105-162 | the response and the new state of one delivery |
| Webhook.ReplaysHaveNoEffect | server/src/bmac.rs:132-155 | after any deliveries the accounts are the fold of the effects over the first delivery of each external id |
| Webhook.FirstsExactly | server/src/bmac.rs:132-151 | no id is among the first deliveries twice |
| Webhook.FirstsCarry | server/src/bmac.rs:105-151 | every delivered id that is not empty is among the first deliveries |
| Webhook.SlotsExactly | server/src/bmac.rs:209-257 | the slots are ten times the packs of the first-seen matched purchases if and only if that total fits the 32-bit column |
| Webhook.PacksOneByOne | server/src/bmac.rs:209-257 | packs bought at once are packs bought one by one, ten slots each, as long as they fit; a quantity of zero or less buys one |
| Webhook.TierExactly | server/src/bmac.rs:165-207 | after any deliveries the membership is that of the last first-seen matched event that sets it: plus until its end after a plus membership, free after a cancellation, unchanged without one |
| Webhook.LargePurchaseTakesSlots | server/src/bmac.rs:218-252 | the cast and the product wrap: a large quantity takes slots away |
| Webhook.ExtrasExactly | server/src/bmac.rs:247-276 | an extra, or group chat, is owned if and only if it was or a first-seen matched purchase bought it |
| Webhook.UnmatchedIsSpent | server/src/bmac.rs:149-159 | an event recorded for an unknown email has no effect when it is delivered again |
| PreKeys.Server.UploadBundle | server/src/auth.rs:1539-1586 | the upload loop keeps the key of an id that is there |
| PreKeys.Server.FetchBundle | server/src/auth.rs:1611-1669 | the signed bundle of the lowest device, and the one-time key returned and removed |
| PreKeys.UploadExactly | server/src/auth.rs:1539-1586 | an upload replaces the signed bundle of its device and no other, keeps every one-time key that is there, and adds each new id with the key first listed under it |
| PreKeys.FetchExactly | server/src/auth.rs:1624-1654 | a fetch returns the bundle of the lowest device, hands out the lowest id with its key and removes that row only; without a bundle it consumes nothing |
| PreKeys.HandedOrThere | server/src/auth.rs:1575-1654 | every key put in the table is there or was handed out, once |
| PreKeys.HandedOnce | server/src/auth.rs:1575-1654 | an id uploaded at most once goes to at most one fetch |
| PreKeys.UploadedAgain | server/src/auth.rs:1575-1586 | an id uploaded again after each hand-out goes out again each time |
| PreKeys.IdsAscend | server/src/auth.rs:1641-1654 | between two uploads a user's ids go out in increasing order |
| PreKeys.UsedOnce | packages/core/src/encryption/session.ts:296-304 | over any incoming envelopes, one call after another, each private one-time key enters at most one shared secret |
| Overlap.UsedOnceExactly | packages/core/src/encryption/session.ts:297-303 | with loading and removing the key as separate steps: it enters at most one shared secret if and only if no call found it while another had yet to remove it |
| RateLimit.RateLimiter.Check | server/src/ratelimit.rs:37-55 | the entry after the check, and the answer |
| RateLimit.AnswerExactly | server/src/ratelimit.rs:37-55 | a request is permitted if and only if its address has used less than the limit since its window began, or opens a new one; a refused one counts for nothing and moves no window |
| RateLimit.BelowTwiceTheLimit | server/src/ratelimit.rs:37-55 | with a monotone clock at most twice the limit less one in any interval of window length; at most the limit if the window is one tick, none if it is empty |
| RateLimit.LimitPerWindow | server/src/ratelimit.rs:37-55 | at most the limit since the address's window began |
| RateLimit.AddressesIndependent | server/src/ratelimit.rs:38-43 | what an address is permitted does not depend on any other |
| RateLimit.BoundIsReached | server/src/ratelimit.rs:45-54 | for every limit and every window a run reaches that bound |

## Left out

- WebCrypto: P-256, HKDF, AES-GCM, ECDSA and SHA are symbolic or parameters; nonces and associated data play no part.
- JSON, base64, UTF-8 and WebSocket framing; header numbers that are not integers.
- Forged envelopes: `Ratchet` and `SessionManager` cover any header and `Authentication` a forged first message, but the
  runs of `TwoParty` hold only envelopes the two devices made.
- Both sides initiating at once, several devices of one user, and session deletion.
- Encryption over the in-memory store: it aliases in the same way as the decryption that is modelled.
- An empty queue while the recipient is connected: the code does not promise it.
- Presence, the contact snapshot, delivery receipts on replay and all other events that share a channel with messages.
- Payload size limits and the lookup of the recipient by name: a message that fails them is never accepted. Blocks are
  in `Contacts`, where message acceptance is one atomic step.
- `activeConversationId`, `sendAttachment`, `sendWinkd` and `sendNudge`: they append as `sendText` does. Which of
  several conversations with one contact is opened does not matter to the messages.
- A UTF-16 order of ids: `SafetyNumber` compares characters, and only needs the order to be total.
- A cap on inbound acceptances: AcceptContact checks none.
- Handlers of two users interleaving between the block check and the request insert: `Contacts` has atomic handlers,
  `BuddyCap` interleaves one user's own.
- TwoParty.MessageKeysUnique: takes each call on a peer as one step, as do all runs of `TwoParty`; `Overlap` and
  `Interleaved` have the steps apart. What overlapping `decrypt` calls lose on the receiving side is not modelled.
- PreKeys.UsedOnce: takes each `decrypt` as one step; `Overlap.UsedOnceExactly` has the steps apart.
- ChatStore.UnwipedExactly: not for a conversation with oneself, whose record any other conversation may name;
  `ChatStore.ExactlyOnce` and `ChatStore.OpenExactly` cover it.
- Users deleted with their rows, changed names, and a tier that expires or is upgraded during a run of `BuddyCap`. Its
  purchases only add slots; `Webhook.SlotsExactly` says when they do.
- The tier match, the period end, the signature and the JSON paths of a webhook: an event carries their results. A
  database failure counts as a replay in the code and is left out, and so are a debug build's overflow panics.
- `newRegistrationId`, key generation, pre-key signatures beyond whether they verify.
- Other branches of the command handler, account recovery, password rules and all user interface.
