# Veil: messaging core, modelled and proved

Dafny models of the parts of Veil that decide whether messages arrive, arrive
once and arrive unchanged: the Double Ratchet and the handshake that seeds it,
the session layer on top, the media replay window, the device's and the relay's
stores, the rate limiter, the wire format and the padding.

Run `dafny verify dfyconfig.toml` here to check everything.

## How it is built

Cryptography is symbolic (`Keys.dfy`). HKDF and HMAC are free constructors, an
X25519 agreement is the unordered pair of two public keys, a KEM secret depends on
the target key and the whole ciphertext, and an AEAD ciphertext opens only under
its own key and associated data. A secret key is named by its public half. A
ratchet key pair is an object (`SharedKeyPair`), because the source zero-fills its
secret in place while the prekey store may hold the same object; other wiped keys
are values that are dropped. Whatever the source draws at random (key pairs, the
KEM ciphertext), reads from a clock, or asks a signature check is a parameter.

Code that updates state in place is a class (`RatchetState`, `SharedKeyPair`,
`Sender`, `Receiver`, `SessionState`, `RateLimiter`, `InMemoryRelayStore`,
`InMemoryPreKeyStore`, `Writer`, `Reader`). Its methods carry the source's loops and early exits and are
proved equal to a function on values; the properties of whole runs are then proved
of that function.

| file | content |
|---|---|
| `Wire.dfy`, `Codec.dfy` | byte fields, writer and reader; preamble and message codecs |
| `Base32.dfy`, `Padding.dfy` | address encoder, bucket padding |
| `Keys.dfy`, `DoubleRatchet.dfy` | symbolic keys; one party's ratchet |
| `KeyMap.dfy` | the ratchet's chain and cache as one map of message keys |
| `Bounds.dfy` | eviction, work, cache size; reason and effect of every refusal |
| `RatchetRuns.dfy` | one party over arbitrary runs: cache, no key reuse |
| `Conversation.dfy` | two parties and a hostile network |
| `StrayTurns.dfy`, `CutOff.dfy` | what the one excluded kind of message does, at once and for good |
| `Compromise.dfy` | what a stolen ratchet state reveals |
| `Pqxdh.dfy`, `Session.dfy`, `Burst.dfy` | handshake, session routing, the first messages |
| `Sframe.dfy` | media frames and replay window |
| `Protocol.dfy`, `PreKeyStore.dfy`, `RelayStore.dfy`, `OneTimeKeys.dfy` | prekeys on the device and the relay, mailboxes |
| `RateLimit.dfy` | the relay's rate limiter |

## Main results

- **Delivery** (`Conversation`). Two ratchets talk over a network that reorders,
  loses, replays and forges. In every reachable world an undelivered message whose
  key was not evicted decrypts to what was sent exactly when its gaps are within
  the skip bound (`DeliversIff`); nothing else is ever returned and nothing twice
  (`DeliveredOnceAsSent`). In runs where each message is handed over at most once
  every delivery succeeds (`EveryPassDelivers`). The two root keys stay one step
  apart on one sequence (`Lockstep`).
- **The one thing the network must not do.** The code commits a ratchet step
  before it authenticates the message (`doubleRatchet.ts:424-426` against `445`),
  where section 3.5 of the Double Ratchet specification discards the state on
  failure; the comments at lines 451-459, which promise that a failure leaves the
  state untouched, hold for the chain step alone. So the delivery theorems assume
  that a message which makes the receiver step names its peer's current key and
  previous chain length (`Permitted`). `RejectionKeepsRootIff` says exactly which
  rejected messages disturb the ratchet, and `HarmlessRejection` that the others cost
  nothing. `ForgedTurnStrays` gives the failing input: in every reachable world a
  message anyone can make up is refused and steps the ratchet. `ReplayStraysIff` says
  when a replay of genuine traffic does. Both name a key other than the peer's
  current one, and after such a step the receiver opens nothing but what is cached,
  whatever it is handed from then on (`CutOff.StrayTurnCutsOff`). Cached keys are not
  safe either: a step back to a closed chain with claimed number n writes stray keys
  over the genuine ones below n, and `CachedPacketSurvivesIff` says exactly which
  messages survive. A message that does name the current key disturbs the root
  without cutting anything off, but a wrong length in it gives messages up:
  `EarlierPacketSurvivesIff` says exactly which survive that.
- **Chain and cache are one map** (`KeyMap`). `DecryptRefinesMap`: as long as no
  message steps back to a ratchet key with keys still cached under it, a ratchet
  answers as a plain map from (ratchet key, number) to message key would, and
  consumes exactly the pair it used.
- **Forward secrecy and break-in recovery** (`Compromise`). Nothing a party holds
  leads back to the key of a message it has sent or received, even for someone who
  knows every Diffie-Hellman secret (`PastKeysUnderivable`); of the turns it has
  opened its keys reveal exactly what it can still decrypt (`RevealsExactlyTheMap`).
  Of later turns, a state stolen with its ratchet secret reveals to a listener the
  messages of the very next turn and of no other (`RevealsOnlyTheNextTurn`).
- **Handshake** (`Pqxdh`). `RootsAgreeIff`: the two sides share a root secret if
  and only if they agree on both identities, every key, every id and every presence
  flag. `RootSecretIff`: secret keys lead to it exactly if they cover every agreement,
  the one-time keys included where there were any.
- **Bounds** (`Bounds`). Nothing is evicted but the oldest key of a full cache, one
  for each key that does not fit (`RememberDropsAtMostOldest`, `CacheSizeLaw`); no
  message costs more than the skip bound (`WorkBounded`); and each refusal has its
  exact reason and effect (`RefusalReasons`, `RefusalEffects`).
- **First messages** (`Burst`). Whichever of the initiator's messages arrives first
  creates the one session exactly if its number is within the skip bound and the
  responder's store still answers for the bundle (`FirstArrivalCreatesIff`); every
  named one-time key is removed exactly once (`OneSessionPaidOnce`); all others are
  routed to that session.
- **Two promises about first messages that the code does not keep.**
  *A failing first message costs nothing*: the responder's ratchet pair is the
  store's signed prekey pair (`session.ts:344-356`, `doubleRatchet.ts:231`), and the
  first ratchet step zero-fills it (`doubleRatchet.ts:375`) before the message is
  authenticated. So any first message with a usable ratchet key, refused or not,
  makes the store unable to answer for that signed prekey (`FirstRefused`,
  `IssuedBundleBackedIff`); a message beyond the skip bound that arrives first shuts
  the initiator out for the rest of the run (`TooFarShutsOut`, `FarLetterExists`).
  One-time keys are lost to a failing message exactly if it was sealed correctly
  around something unpadded (`FirstMessageSpendsIff`; `FailureSpendsIff` for every
  input).
  *Replaying a stale prekey message does not reset a live session*
  (`session.ts:249-253`): it does, exactly while the store still answers for its
  bundle (`StaleReplayResetsIff`); no check prevents it, but the same wipe does once
  any first message was answered under that signed prekey
  (`AnsweredReplayNeverResets`).
- **Replay window** (`Sframe`). `BoundedEqualsUnbounded`: over every run the pruned
  window decides as a receiver that remembers every counter. The pruning keeps
  counters above `highest - 1024`, and none are pruned until that is positive, so
  the bound on `seen` is 1025 (`SeenStaysBounded`).
- **Stores**. Conservation and order of relay mailboxes, cause by cause; single use
  of one-time keys on the device, at the relay and across both, and every key offered
  given in its order; retention of exactly the newest three signed generations; at
  most twice the limit of allowed calls per window, and no refusal of a caller that
  has not had the limit.

## Model

| member | source | states |
|---|---|---|
| `Conversation.DeliversIff` | packages/crypto/src/doubleRatchet.ts:411-465 | in every world reachable over a hostile network, a sent message not delivered before whose key was not evicted may be delivered, and decrypts to its plaintext exactly when the gaps it opens are at most MAX_SKIP_PER_CHAIN |
| `Conversation.EveryPassDelivers` | packages/crypto/src/doubleRatchet.ts:195-465 | over every run that passes on sent messages at most once, in any order and with losses, within the skip bound and without eviction: the delivered plaintexts are exactly those of the messages passed on |
| `Conversation.DeliveredOnceAsSent` | packages/crypto/src/doubleRatchet.ts:385-465 | whatever the network did within `Permitted`, every returned plaintext is what the peer sent under exactly that header, and no (ratchet key, number) is delivered to a party twice |
| `Conversation.Lockstep` | packages/crypto/src/doubleRatchet.ts:337-383 | the party with the newest key is exactly one root step ahead of its peer, receives under the key its peer sends under, and its receiving chain and the peer's sending chain are one chain, each advanced by its own counter |
| `Conversation.CanSendIff` | packages/crypto/src/doubleRatchet.ts:250-268 | in every reachable world a party can send exactly once its first turn has come and while its counters fit 32 bits |
| `CutOff.StrayTurnCutsOff` | packages/crypto/src/doubleRatchet.ts:419-460 | after a message with a ratchet key other than the peer's current one made the receiver step, and whatever it is handed afterwards, it opens of all messages sealed in any turn of the conversation only those whose right key lay in its cache right after the step |
| `CutOff.CachedPacketSurvivesIff` | packages/crypto/src/doubleRatchet.ts:317-334 | after such a step an unevicted message of the peer still decrypts exactly if its key was cached before or is cached by closing the old chain, and the catch-up under the stray key does not overwrite it |
| `CutOff.SkipEntries` | packages/crypto/src/doubleRatchet.ts:289-334 | catching up leaves the entries it does not write unless evicted, adds no others, and those it writes come from the chain, whatever was cached under their ids |
| `CutOff.DecryptKeepsAstray` | packages/crypto/src/doubleRatchet.ts:385-465 | no message brings a receiver gone astray back: its chain, root and new cache entries stay foreign to the conversation |
| `StrayTurns.ForgedTurnStrays` | packages/crypto/src/doubleRatchet.ts:419-460 | in every reachable world a forged message with an unused ratchet key is refused and yet makes the receiver step away from its peer |
| `StrayTurns.ReplayStraysIff` | packages/crypto/src/doubleRatchet.ts:419-460 | a replay of a delivered message from a chain no longer current is refused, and steps the ratchet away from the peer exactly if its claimed previous length is within the skip bound |
| `StrayTurns.EarlierPacketSurvivesIff` | packages/crypto/src/doubleRatchet.ts:337-383 | after a step to the peer's current key under any claimed length, an undelivered, unevicted message of an earlier turn still decrypts exactly if it is not in the chain just closed or its number is below the claimed length or the received count |
| `StrayTurns.StepKeepsPair` | packages/crypto/src/doubleRatchet.ts:343-380 | a step and the answer to its message keep every other key that is not evicted, and drop those the claimed length gives up |
| `Conversation.ReachableInv` | packages/crypto/src/doubleRatchet.ts:65-92 | every reachable world satisfies the cross-party invariant: both ratchets on one key schedule, the receiver able to derive exactly what was sent and not yet delivered or evicted, packets as the schedule prescribes |
| `Conversation.StartInv` | packages/crypto/src/doubleRatchet.ts:195-240 | an initiator and a responder with the same root secret satisfy the invariant at the start |
| `Conversation.SendKeepsInv` | packages/crypto/src/doubleRatchet.ts:250-279 | sending, by either party at any time, keeps the invariant |
| `Conversation.DeliverKeepsInv` | packages/crypto/src/doubleRatchet.ts:411-465 | delivering any permitted message, genuine or not, accepted or refused, keeps the invariant |
| `Conversation.TurnKeepsInv` | packages/crypto/src/doubleRatchet.ts:337-383 | a ratchet step to the peer's newest key keeps the invariant and puts the receiver two turns further |
| `Conversation.TurnKeepsSide` | packages/crypto/src/doubleRatchet.ts:337-383 | the two halves of a ratchet step land on the common key schedule: receiving chain at the peer's turn, sending chain and root at the new one |
| `Conversation.TurnKeepsReceiver` | packages/crypto/src/doubleRatchet.ts:343-380 | across a ratchet step the receiver keeps every undelivered key below the announced chain length and gains the new chain, with no wrong and no consumed key |
| `Conversation.AnswerKeepsReceiver` | packages/crypto/src/doubleRatchet.ts:385-465 | a receiver in good standing stays so after any answer; a returned plaintext was sent by the peer under that header and is new |
| `Conversation.ReachableNext` | packages/crypto/src/doubleRatchet.ts:250-465 | every permitted step from a reachable world leads to a reachable world |
| `KeyMap.DecryptRefinesMap` | packages/crypto/src/doubleRatchet.ts:385-465 | provided a header that starts a ratchet step names a key with nothing cached under it, chain plus cache answer each message exactly as a map from (ratchet key, number) to message key would; success removes exactly the pair used, refusal removes none, save what eviction drops |
| `KeyMap.SkipKeepsMap` | packages/crypto/src/doubleRatchet.ts:317-334 | catching up leaves the map of derivable keys unchanged up to evictions |
| `KeyMap.SkipWithRoom` | packages/crypto/src/doubleRatchet.ts:289-334 | while the cache has room for the gap, catching up evicts nothing |
| `KeyMap.TurnMap` | packages/crypto/src/doubleRatchet.ts:337-383 | a ratchet step keeps the key of every pair except those at or beyond both the announced length and the received count, which it gives up, and opens the whole new chain |
| `KeyMap.HarmlessRejection` | packages/crypto/src/doubleRatchet.ts:393-465 | a refused message that starts no ratchet step changes neither root, sending side nor any derivable key while the cache has room: whatever could be decrypted before still can |
| `KeyMap.RejectionKeepsRootIff` | packages/crypto/src/doubleRatchet.ts:419-449 | a refused message leaves the root key alone if and only if its header starts no ratchet step |
| `KeyMap.RejectedIsSkipped` | packages/crypto/src/doubleRatchet.ts:317-334 | all a refused message without a ratchet step can do is to catch up towards its claimed number |
| `KeyMap.ForgetMap` | packages/crypto/src/doubleRatchet.ts:393-408 | consuming a cached key removes exactly that pair from the map |
| `KeyMap.AdvanceOneMap` | packages/crypto/src/doubleRatchet.ts:436-462 | consuming the next key of the chain removes exactly that pair from the map |
| `Bounds.RememberDropsAtMostOldest` | packages/crypto/src/doubleRatchet.ts:289-314 | remembering a key drops nothing below the limit and at most the oldest key at it, and leaves every other entry as it was |
| `Bounds.SkipDropsNoMore` | packages/crypto/src/doubleRatchet.ts:289-334 | catching up leaves the cache with everything held and skipped or full, and of what was held at most the excess over the limit is missing |
| `Bounds.CacheSizeLaw` | packages/crypto/src/doubleRatchet.ts:385-465 | the cache after any message holds what it held and every key cached meanwhile, up to the limit, less the cached key that was used |
| `Bounds.DecryptEvictsFull` | packages/crypto/src/doubleRatchet.ts:289-314 | whatever message arrives in whatever state, a key is evicted only if the cache is full in the end, up to one entry |
| `Bounds.WorkBounded` | packages/crypto/src/doubleRatchet.ts:16-20 | no message makes the receiver derive more than MAX_SKIP_PER_CHAIN skipped keys in one chain |
| `Bounds.RefusalReasons` | packages/crypto/src/doubleRatchet.ts:411-440 | the exact condition on state and header for each reason of refusal |
| `Bounds.RefusalEffects` | packages/crypto/src/doubleRatchet.ts:320-325 | a refusal changes nothing unless authentication failed in the chain, which leaves the receiver caught up, or a ratchet step was committed before |
| `Bounds.SendsIff` | packages/crypto/src/doubleRatchet.ts:250-268 | sending fails without a sending chain, changing nothing, or for counters beyond 32 bits, and otherwise succeeds |
| `Compromise.PastKeysUnderivable` | packages/crypto/src/doubleRatchet.ts:6-8 | from all keys a party holds, with the whole key schedule and every Diffie-Hellman secret at hand, neither the key of a message it sent nor of one delivered to it can be derived |
| `Compromise.RevealsOnlyTheNextTurn` | packages/crypto/src/doubleRatchet.ts:10-14 | of all turns after a party's own current one, a stolen state with its ratchet secret reveals to a listener exactly the messages of the very next turn |
| `Compromise.RevealsExactlyTheMap` | packages/crypto/src/doubleRatchet.ts:250-465 | of the peer's opened turns a party's keys reveal exactly those message keys it can still use |
| `RatchetRuns.NoMessageKeyTwice` | packages/crypto/src/doubleRatchet.ts:250-279 | over any interleaving of encryptions with decryptions of arbitrary messages, no two encryptions share a header position or a message key |
| `RatchetRuns.DecryptSendingSide` | packages/crypto/src/doubleRatchet.ts:357-382 | a decryption either leaves the sending side and root untouched or restarts it two root steps deeper with counter zero under the new key |
| `RatchetRuns.CacheOverRuns` | packages/crypto/src/doubleRatchet.ts:289-314 | after every run the cache holds at most MAX_SKIPPED_KEYS keys with distinct sequence numbers, and every key ever evicted is older than every key held |
| `DoubleRatchet.MessageAdInjective` | packages/crypto/src/doubleRatchet.ts:162-185 | the bytes bound by each AEAD determine the header |
| `DoubleRatchet.MessageAdBinds` | packages/crypto/src/doubleRatchet.ts:162-185 | they determine the session's associated data as well, hence both identities |
| `DoubleRatchet.HeaderLayout` | packages/crypto/src/doubleRatchet.ts:162-168 | the header bytes are the ratchet key and the two counters in four bytes each, in this order |
| `DoubleRatchet.RememberKeepsCache` | packages/crypto/src/doubleRatchet.ts:289-314 | remembering a key keeps the cache bounded, its sequence numbers distinct, and everything evicted older than everything held |
| `DoubleRatchet.RatchetState.Initiator` | packages/crypto/src/doubleRatchet.ts:195-217 | the initiator starts with one root step against the peer's key, a sending chain, no receiving chain and an empty cache |
| `DoubleRatchet.RatchetState.Responder` | packages/crypto/src/doubleRatchet.ts:224-240 | the responder starts at the root secret with no chains, and its ratchet pair is the very pair object it was given |
| `DoubleRatchet.RatchetState.RatchetEncrypt` | packages/crypto/src/doubleRatchet.ts:250-279 | new state and message are those of one symmetric sending step; without a sending chain nothing changes; counters beyond 32 bits are refused after the chain has stepped |
| `DoubleRatchet.RatchetState.FindOldest` | packages/crypto/src/doubleRatchet.ts:297-305 | the scan returns the entry with the least sequence number, and none exactly for an empty cache |
| `DoubleRatchet.RatchetState.RememberSkipped` | packages/crypto/src/doubleRatchet.ts:289-314 | at the limit the oldest entry goes, then the key is stored under the next sequence number |
| `DoubleRatchet.RatchetState.StashNext` | packages/crypto/src/doubleRatchet.ts:327-333 | one turn of the catch-up loop caches the chain's next message key and steps the chain |
| `DoubleRatchet.RatchetState.SkipReceivingKeys` | packages/crypto/src/doubleRatchet.ts:317-334 | catches up by caching one key per number, or refuses a gap over MAX_SKIP_PER_CHAIN with the state untouched; no chain or a past number is no work |
| `DoubleRatchet.SkipToFrame` | packages/crypto/src/doubleRatchet.ts:317-334 | catching up touches only cache and receiving chain, which ends up at the target number, advanced by the gap |
| `DoubleRatchet.RatchetState.DhRatchet` | packages/crypto/src/doubleRatchet.ts:337-383 | a degenerate key or an oversized previous chain is refused with the state untouched; otherwise the old chain is closed, both halves of the root step are taken, and the old pair is zero-filled for every holder |
| `DoubleRatchet.RatchetState.CommitTurn` | packages/crypto/src/doubleRatchet.ts:357-382 | receiving chain from the peer's key and the current own key, then sending chain from a new own pair; counters reset, the old sent count remembered, the old pair's secret wiped in place |
| `DoubleRatchet.RatchetState.RenewSending` | packages/crypto/src/doubleRatchet.ts:374-382 | wipes the shared old pair, takes a new one and derives the sending chain and root from it |
| `DoubleRatchet.RatchetState.TryDecryptWithSkipped` | packages/crypto/src/doubleRatchet.ts:385-408 | a cached key is used and removed exactly if the message opens under it; a failure keeps the entry |
| `DoubleRatchet.RatchetState.RatchetDecrypt` | packages/crypto/src/doubleRatchet.ts:411-465 | state and answer for every message: key length, cache, ratchet step, catch-up, chain, number and authentication in this order, each refusal with the state it leaves behind; the pair is wiped and replaced exactly if the header starts a step |
| `DoubleRatchet.RatchetState.DecryptInChain` | packages/crypto/src/doubleRatchet.ts:428-465 | catch-up, chain, number and authentication, with the chain stepped only on success |
| `Pqxdh.RootsAgreeIff` | packages/crypto/src/pqxdh.ts:145-262 | both sides succeeding, their root secrets are equal if and only if they agree on both identities, ephemeral key, KEM ciphertext, all ids and presence flags and the responder's keys are the ones used; then the associated data is equal too |
| `Pqxdh.EqualRootsSameKeys` | packages/crypto/src/pqxdh.ts:145-262 | the same over the fields: equal roots mean the same identities, preamble, signed prekey and one-time prekey, and the one-time KEM key of the bundle if it has one, its signed KEM key only if not |
| `Pqxdh.RootSecretIff` | packages/crypto/src/pqxdh.ts:8-20 | a set of secret keys leads to the root secret exactly if it holds the KEM key encapsulated to and one half of each agreement: initiator identity with signed prekey, ephemeral with responder identity, with signed prekey, and with the one-time prekey if there is one |
| `Pqxdh.ResponderRootNeeds` | packages/crypto/src/pqxdh.ts:233-254 | the responder's root is computable exactly by whoever knows each of its agreements and the decapsulation under the one-time KEM key, or the signed one if there is none |
| `Pqxdh.PreambleSays` | packages/crypto/src/pqxdh.ts:171-200 | the preamble names exactly the ids of the keys used, one-time ids if and only if those keys were there |
| `Pqxdh.RespondOkIff` | packages/crypto/src/pqxdh.ts:210-262 | a handshake can be answered exactly when secrets are there for the one-time ids named and for no others, the ciphertext has its length, keys are usable, and ids and lengths fit |
| `Pqxdh.BothSidesAgree` | packages/crypto/src/pqxdh.ts:145-262 | for all four combinations of one-time keys a responder with matching keys succeeds and derives the initiator's root secret and associated data |
| `Pqxdh.InitiateOkIff` | packages/crypto/src/pqxdh.ts:145-201 | a handshake can be started exactly when the bundle's signatures verify, lengths are right, no key is degenerate, and ids and lengths fit 32 bits |
| `Pqxdh.TranscriptInjective` | packages/crypto/src/pqxdh.ts:104-126 | the transcript bytes determine identities, ephemeral key, KEM ciphertext, key ids and presence of one-time keys |
| `Pqxdh.AssociatedDataInjective` | packages/crypto/src/pqxdh.ts:83-94 | the associated data determines both identities and their roles |
| `Pqxdh.TranscriptLayout` | packages/crypto/src/pqxdh.ts:104-126 | the transcript bytes read as label, initiator, responder, ephemeral key, ciphertext, ids and presence flags, in this order |
| `Pqxdh.AssociatedDataLayout` | packages/crypto/src/pqxdh.ts:83-94 | the associated data reads as label, initiator's keys, responder's keys |
| `Pqxdh.PreambleLayout` | packages/crypto/src/session.ts:94-105 | the encoded preamble reads as its eight fields in order |
| `Session.ResponderAnswers` | packages/crypto/src/session.ts:356-366 | a new responder steps its ratchet on exactly the usable ratchet keys, and decrypts exactly what is sealed under the key the schedule prescribes at its number within the skip bound |
| `Session.NewSessionIff` | packages/crypto/src/session.ts:249-381 | a new session comes about, and replaces a live one, exactly if the checks pass and the message is a padded plaintext sealed as prescribed |
| `Session.FailureSpendsIff` | packages/crypto/src/session.ts:326-381 | a failing envelope never replaces a session; it wipes the signed secret exactly if it reaches the new ratchet with a usable key, and spends one-time keys exactly if it names some and is sealed as prescribed around something that is not a padded plaintext |
| `Session.Start` | packages/crypto/src/session.ts:160-195 | a session exists exactly if the pinned fingerprint matches and the handshake succeeds, signatures included, with the initiator's ratchet towards the signed prekey and the preamble pending |
| `Session.StartIff` | packages/crypto/src/session.ts:160-195 | a session results exactly if a pinned fingerprint is the peer's signing key and the handshake can be started, and then it is one with that identity, towards the signed prekey, with the preamble pending |
| `Session.PinRefuses` | packages/crypto/src/session.ts:274-283 | a sender other than the pinned identity is refused whatever it sends, with nothing changed, and nobody else is refused for that |
| `Session.MissingKeyReasons` | packages/crypto/src/session.ts:313-343 | the exact condition for each failure that lies with the device's keys or session, the first that applies being reported, with nothing changed |
| `Session.EncryptPayload` | packages/crypto/src/session.ts:206-231 | the padded plaintext goes through the ratchet, and the payload repeats the preamble while it is pending |
| `Session.PayloadArrives` | packages/crypto/src/session.ts:219-229 | what the recipient reads from kind and payload bytes is the message, with the preamble exactly while it is pending |
| `Session.DecryptEnvelope` | packages/crypto/src/session.ts:255-412 | prekeys, session and answer for every opened envelope: pinning first, then routing; the wipe of a signed prekey through the new ratchet included |
| `Session.DecryptPayload` | packages/crypto/src/session.ts:285-412 | malformed and unknown kinds, repeated preamble, new session, plain message, each failure with the state it leaves |
| `Session.DecryptPreKey` | packages/crypto/src/session.ts:287-381 | a repeated preamble goes to the session it created, any other to a new handshake; the old session stays unless a new one comes about |
| `Session.AdmitPreamble` | packages/crypto/src/session.ts:313-363 | lookups, handshake and body in this order; the new ratchet holds the store's own signed prekey pair |
| `Session.DecryptFirst` | packages/crypto/src/session.ts:363-369 | the first decryption wipes the store's signed secret exactly if the header starts a ratchet step, and consumes the named one-time keys exactly if it succeeds |
| `Session.DecryptRepeat` | packages/crypto/src/session.ts:296-311 | a repeated prekey message is decrypted by the existing session without touching prekeys |
| `Session.EstablishSession` | packages/crypto/src/session.ts:313-381 | lookups, handshake and first decryption in this order; one-time keys are consumed only after the message has decrypted, the signed secret is wiped before; a session results exactly for a padded plaintext |
| `Session.ResolveKeys` | packages/crypto/src/session.ts:313-342 | the four lookups: an unknown signed id or a used one-time id is reported, otherwise the named secrets are returned |
| `Session.ConsumeKeys` | packages/crypto/src/session.ts:368-369 | removes exactly the named one-time keys, secret and offer |
| `Session.DecryptRatchet` | packages/crypto/src/session.ts:387-411 | needs a session and a message without trailing bytes; a successful decryption ends the preamble even if unpadding then fails |
| `Burst.OneSessionPaidOnce` | packages/crypto/src/session.ts:287-381 | at every point of every run at most one session has been created, each named one-time id was removed exactly once if so and not at all otherwise, everything received was written by the peer under that header, and nothing was received twice |
| `Burst.LetterDeliversIff` | packages/crypto/src/session.ts:255-412 | in every run a letter not received before and not evicted yields exactly what was written, and reports a new session exactly if it is Bob's first, if and only if its gaps are within the bound and, for a first message, his store still answers for the bundle |
| `Burst.FirstArrivalCreatesIff` | packages/crypto/src/session.ts:313-381 | whichever first message arrives first creates the session and delivers its plaintext exactly if its number is within the skip bound and Bob's store still holds every named secret, the signed one unwiped |
| `Burst.TooFarShutsOut` | packages/crypto/src/doubleRatchet.ts:372-378 | once a first message beyond the skip bound was handed over, every course in which the store does not get the wiped secret back ends without session and without a plaintext received, and every letter written by then is refused |
| `Burst.CourseStaysShut` | packages/crypto/src/session.ts:313-381 | a responder without session whose store does not answer for the bundle stays so over every such course |
| `Burst.FarLetterExists` | packages/crypto/src/session.ts:206-231 | the failing input: after 1002 letters number 1001 is out of reach while number 0 is not and the store is in order |
| `Burst.FirstRefused` | packages/crypto/src/session.ts:345-366 | a first message that Bob does not decrypt leaves him without a session and with all one-time keys, but with the signed secret wiped if it was intact, so that his store no longer answers for the bundle |
| `Burst.UnbackedRefuses` | packages/crypto/src/session.ts:313-366 | without the named secrets intact no message of the handshake opens, no session comes about and no one-time key is spent |
| `Burst.Routed` | packages/crypto/src/session.ts:291-311 | once the session exists each of the peer's messages, with or without preamble, is answered by it and costs no one-time key |
| `Burst.FirstMessageSpendsIff` | packages/crypto/src/session.ts:363-377 | a first message sealed as prescribed fails and still costs one-time keys exactly if some are named, its number is within the skip bound, and what was sealed is not some plaintext, the marker and zeros |
| `Burst.StaleReplayResetsIff` | packages/crypto/src/session.ts:249-253 | a replayed prekey message replaces a live session of another handshake exactly while the store still answers for its bundle |
| `Session.ReceptionIsLifetime` | packages/crypto/src/session.ts:255-412 | the effect of any envelope on the prekeys is that of operations of the store's lifetime |
| `Burst.AnsweredReplayNeverResets` | packages/crypto/src/session.ts:249-253 | over one store lifetime, once a first message was answered under the signed prekey no replay under it resets a live session |
| `Burst.IssuedBundleBackedIff` | packages/crypto/src/preKeyStore.ts:147-157 | whatever a device has done since it was set up, it holds the secret of every key a bundle it issues names exactly as long as no first message was answered under its current signed prekey |
| `Burst.IssuedBundleOpens` | packages/crypto/src/session.ts:160-195 | every handshake started from a bundle the device can answer for is one the results about first messages apply to |
| `Burst.CourseKeeps` | packages/crypto/src/session.ts:206-412 | every course of writing, handing over, replaying and tending prekeys keeps the session-level invariant, under which sessions follow the two-party conversation |
| `Codec.PayloadRoundTrip` | packages/crypto/src/session.ts:94-146 | a recipient reads back from each kind of payload the preamble and message that were put in |
| `Codec.PreambleBack` | packages/crypto/src/session.ts:94-126 | a preamble survives encoding and decoding, optional ids included, whatever follows it |
| `Codec.RatchetMessageBack` | packages/crypto/src/session.ts:128-146 | a ratchet message survives encoding and decoding |
| `Codec.RatchetPayloadExact` | packages/crypto/src/session.ts:137-146 | a ratchet payload with anything after it or cut short anywhere is refused, while a body within a prekey payload may be followed by anything |
| `Codec.PreKeyPayloadExact` | packages/crypto/src/session.ts:285-290 | a prekey payload with anything after it or cut short anywhere is refused, and so is every other kind |
| `Codec.MessageLayout` | packages/crypto/src/session.ts:128-135 | the encoded message reads as ratchet key, two counters and ciphertext in this order |
| `Codec.DecodePreamble` | packages/crypto/src/session.ts:107-126 | steps the reader over the preamble's eight fields, refusing on any short read |
| `Codec.DecodeRatchetMessage` | packages/crypto/src/session.ts:137-146 | steps the reader over key, two counters and ciphertext, refusing on any short read |
| `Wire.RoundTrip` | packages/crypto/src/wire.ts:14-119 | for every list of in-range fields reading back what was written recovers each field and stops exactly where the writing stopped |
| `Wire.Unambiguous` | packages/crypto/src/wire.ts:14-119 | two encodings of one layout that agree as bytes agree in every field |
| `Wire.TruncatedRefused` | packages/crypto/src/wire.ts:76-87 | every proper prefix of an encoding is refused |
| `Wire.RangeLimits` | packages/crypto/src/wire.ts:24-58 | exactly the integers of one, four and eight bytes and lengths of four bytes are in range |
| `Wire.BigEndianRoundTrip` | packages/crypto/src/wire.ts:24-47 | an integer that fits its width is recovered from its bytes |
| `Wire.ValueInjective` | packages/crypto/src/wire.ts:89-101 | equally long byte strings with the same value are equal |
| `Wire.Writer.PutUint` | packages/crypto/src/wire.ts:24-47 | appends the big-endian bytes, and refuses out-of-range values without writing anything |
| `Wire.Writer.PutPrefixed` | packages/crypto/src/wire.ts:55-58 | appends length and bytes |
| `Wire.Writer.PutFixed` | packages/crypto/src/wire.ts:50-52 | appends the bytes as they are |
| `Wire.Writer.Finish` | packages/crypto/src/wire.ts:60-68 | the buffer holds all chunks in order |
| `Wire.Reader.TakeBytes` | packages/crypto/src/wire.ts:76-87 | returns the next bytes and moves past them, or refuses without moving |
| `Wire.Reader.GetUint` | packages/crypto/src/wire.ts:89-101 | reads one integer as specified, or refuses without moving |
| `Wire.Reader.GetPrefixed` | packages/crypto/src/wire.ts:107-109 | reads a length and that many bytes, or refuses |
| `Wire.Reader.End` | packages/crypto/src/wire.ts:112-118 | succeeds exactly when nothing is left |
| `Base32.ToBase32` | packages/crypto/src/wire.ts:124-138 | although the accumulator wraps at 32 bits the output is the base-32 spelling of the whole input as one number padded with zero bits, ceil(8n/5) characters long |
| `Base32.EncodedInjective` | packages/crypto/src/wire.ts:124-138 | no two inputs of the same length share an encoding |
| `Base32.EncodedReadsBack` | packages/crypto/src/wire.ts:121-138 | read as base-32 digits the output is the input followed by fewer than five zero bits, in as many characters as that takes |
| `Base32.ShiftIn` | packages/crypto/src/wire.ts:129-130 | shifting a byte into the wrapped accumulator keeps all pending bits |
| `Padding.UnpadPad` | packages/crypto/src/padding.ts:37-61 | every byte string survives padding and stripping; the padded length is its bucket |
| `Padding.StrippedIff` | packages/crypto/src/padding.ts:53-61 | stripping returns a plaintext exactly on that plaintext followed by the marker and zeros, and fails on everything else |
| `Padding.BucketIsLeast` | packages/crypto/src/padding.ts:25-35 | the bucket is the least one of the schedule that holds the plaintext and one more byte |
| `Padding.BucketMonotone` | packages/crypto/src/padding.ts:25-35 | longer plaintexts never get smaller buckets |
| `Padding.OverheadBound` | packages/crypto/src/padding.ts:25-35 | a bucket is at most 128 or at most a quarter, rounded up, above the length |
| `Padding.ScheduleSteps` | packages/crypto/src/padding.ts:21-34 | buckets start at 128 and each is the one before times 1.25, rounded up |
| `Padding.BucketSize` | packages/crypto/src/padding.ts:25-35 | the growing loop ends at that bucket; a negative length is refused |
| `Padding.Pad` | packages/crypto/src/padding.ts:37-44 | the plaintext, the marker, zeros up to the bucket |
| `Padding.Unpad` | packages/crypto/src/padding.ts:53-61 | the backward scan strips as specified and refuses everything else |
| `Sframe.BoundedEqualsUnbounded` | packages/crypto/src/sframe.ts:146-190 | over every run the receiver outputs exactly what one remembering every accepted counter would |
| `Sframe.WindowIsIdeal` | packages/crypto/src/sframe.ts:146-190 | a frame is accepted exactly if it is in range, authentic, new, and less than REPLAY_WINDOW below every accepted counter; otherwise nothing changes |
| `Sframe.VerdictReasons` | packages/crypto/src/sframe.ts:151-165 | the exact condition for each refusal: out of range, a replay or too old, not authentic |
| `Sframe.FrameAdBinds` | packages/crypto/src/sframe.ts:128-131 | the bytes bound to a frame determine its counter and its additional data |
| `Sframe.NoCounterTwice` | packages/crypto/src/sframe.ts:157-160 | no counter is accepted twice in any run |
| `Sframe.SeenStaysBounded` | packages/crypto/src/sframe.ts:180-188 | the set of seen counters never exceeds REPLAY_WINDOW + 1 |
| `Sframe.SenderNeverRepeats` | packages/crypto/src/sframe.ts:115-137 | frame i of a call carries counter i, so counters and frame keys never repeat, and the sender refuses exactly after MAX_FRAME_COUNTER + 1 frames |
| `Sframe.OutputsAreSentFrames` | packages/crypto/src/sframe.ts:115-190 | over a lossy, repeating, reordering, altering channel each output is the frame sent at that counter with its additional data, at most once |
| `Sframe.FrameOutputIff` | packages/crypto/src/sframe.ts:146-190 | a sent frame that arrives is output exactly if its counter was not output before and lies in the window of everything output |
| `Sframe.Sender.EncryptFrame` | packages/crypto/src/sframe.ts:115-137 | seals under the current counter and increments it, or refuses past the limit and keeps it |
| `Sframe.Receiver.DecryptFrame` | packages/crypto/src/sframe.ts:146-190 | window and verdict for every frame: range, replay, age, authenticity in this order, updates only on success |
| `Sframe.Receiver.DropUpTo` | packages/crypto/src/sframe.ts:183-187 | the pruning loop keeps exactly the counters above the cutoff |
| `PreKeyStore.IssuedOnceConsumedForGood` | packages/crypto/src/preKeyStore.ts:147-186 | over one store lifetime no one-time id is issued twice, and a consumed id never returns as a secret or on offer |
| `PreKeyStore.NewestGenerationsHeld` | packages/crypto/src/preKeyStore.ts:77-97 | exactly the newest three generations of signed keys are held and the current ones are the newest; a signed secret is intact until a first message is answered under it and never again afterwards |
| `PreKeyStore.IdsApartAndBacked` | packages/crypto/src/preKeyStore.ts:56-119 | ids of the four pools are disjoint and below nextId; every one-time key on offer has its secret |
| `PreKeyStore.UploadsBacked` | packages/crypto/src/preKeyStore.ts:100-122 | every uploaded key has its own id and its secret is held until consumed |
| `PreKeyStore.OnOfferIff` | packages/crypto/src/preKeyStore.ts:147-186 | an uploaded key is on offer exactly until it is issued or consumed |
| `PreKeyStore.InMemoryPreKeyStore.constructor` | packages/crypto/src/preKeyStore.ts:71-74 | a new store has one signed generation and a full set of one-time keys |
| `PreKeyStore.InMemoryPreKeyStore.RotateSignedPreKeys` | packages/crypto/src/preKeyStore.ts:77-90 | adds one generation of each signed kind under consecutive ids and forgets the oldest beyond three |
| `PreKeyStore.InMemoryPreKeyStore.PruneGenerations` | packages/crypto/src/preKeyStore.ts:92-97 | the loop drops oldest generations until three are left |
| `PreKeyStore.InMemoryPreKeyStore.ReplenishOneTimePreKeys` | packages/crypto/src/preKeyStore.ts:100-122 | adds secrets and offers under consecutive fresh ids and returns the new public keys |
| `PreKeyStore.InMemoryPreKeyStore.IssueBundle` | packages/crypto/src/preKeyStore.ts:147-157 | hands out the current signed keys and the oldest one-time key of each kind, removed from the offer |
| `PreKeyStore.InMemoryPreKeyStore.ConsumeOneTimePreKey` | packages/crypto/src/preKeyStore.ts:178-181 | deletes secret and offer of that id |
| `PreKeyStore.InMemoryPreKeyStore.ConsumeOneTimeKemPreKey` | packages/crypto/src/preKeyStore.ts:183-186 | the same for the KEM pool |
| `PreKeyStore.InMemoryPreKeyStore.NeedsReplenishment` | packages/crypto/src/preKeyStore.ts:124-129 | false exactly if each of the next bundles up to the low-water mark will carry a one-time key of both kinds |
| `OneTimeKeys.EachKeyGivenOnce` | packages/relay/src/store.ts:76-118 | with a device that uploads what it makes once and in order, the relay gives no one-time key to two peers and the device holds the secret of each key given or has consumed it |
| `RelayStore.MailboxConservation` | packages/relay/src/store.ts:120-152 | over every sequence of operations a queue is bounded, is an in-order subsequence of its arrivals, and each arrival is exactly once queued, acknowledged by its id, expired by its age, or pushed out as the oldest of a full queue |
| `RelayStore.OverflowDropsOldest` | packages/relay/src/store.ts:120-128 | an arrival at a full queue pushes out a prefix of it, and nothing is pushed out of a queue with room |
| `RelayStore.AddressesIndependent` | packages/relay/src/store.ts:120-152 | a queue is what the operations on its own address and the clock alone would have made it |
| `RelayStore.RelayGivesEachKeyOnce` | packages/relay/src/store.ts:76-118 | if a client never offers an id twice, no one-time key is given to two fetches and every key given was offered |
| `RelayStore.GivenThenPooled` | packages/relay/src/store.ts:76-118 | for an address registered once that never uploads more than fits, the keys given followed by those in the pool are all keys offered, in order |
| `RelayStore.FetchGoesWithoutIff` | packages/relay/src/store.ts:104-118 | a fetch goes without a key exactly if all keys offered were given before |
| `RelayStore.UploadExact` | packages/relay/src/store.ts:89-101 | an upload is kept whole while there is room and up to the cap otherwise, behind what the pool holds |
| `RelayStore.AccountIsLatest` | packages/relay/src/store.ts:68-102 | an address has an account exactly once it was registered, with its last registered identity and the signed keys it gave last |
| `RelayStore.ExpiryKeepsIff` | packages/relay/src/store.ts:144-152 | expiry keeps a message exactly if it is younger than thirty days |
| `RelayStore.AcknowledgementKeepsIff` | packages/relay/src/store.ts:134-142 | an acknowledgement removes exactly the messages it names from its own address |
| `RelayStore.TotalSplit` | packages/relay/src/store.ts:159-163 | the total over all queues does not depend on the order of summation |
| `RelayStore.InMemoryRelayStore.EnqueueMessage` | packages/relay/src/store.ts:120-128 | appends, then drops oldest first down to the limit |
| `RelayStore.InMemoryRelayStore.AcknowledgeMessages` | packages/relay/src/store.ts:134-142 | removes exactly the named ids of one queue and returns how many |
| `RelayStore.InMemoryRelayStore.ExpireMessages` | packages/relay/src/store.ts:144-152 | keeps exactly the messages younger than the limit in every queue and returns how many went |
| `RelayStore.InMemoryRelayStore.CreateAccount` | packages/relay/src/store.ts:68-70 | registers the record under its address, replacing an older one |
| `RelayStore.InMemoryRelayStore.UpdatePreKeys` | packages/relay/src/store.ts:76-102 | replaces given signed keys, appends one-time keys up to the cap, ignores unknown addresses |
| `RelayStore.InMemoryRelayStore.TakeOneTimePreKeys` | packages/relay/src/store.ts:104-118 | hands out and removes the first key of each pool |
| `RelayStore.InMemoryRelayStore.TotalQueued` | packages/relay/src/store.ts:159-163 | the loop returns the sum of all queue lengths |
| `RateLimit.RateBound` | packages/relay/src/rateLimit.ts:31-44 | over every run with a non-decreasing clock, any interval of windowMs contains at most twice the limit of allowed calls of a key whose live bucket is not evicted |
| `RateLimit.RefusedHadLimit` | packages/relay/src/rateLimit.ts:31-44 | over every run, when a call is refused at least the limit of calls of that key were allowed within the window before it, so whoever had fewer is allowed |
| `RateLimit.ForcedEvictionModest` | packages/relay/src/rateLimit.ts:46-60 | live buckets disappear only when 100 000 were live, then exactly 10 000 of them, none newer than one that stays |
| `RateLimit.TrackedKeysBounded` | packages/relay/src/rateLimit.ts:31-60 | the bucket map never exceeds MAX_TRACKED_KEYS |
| `RateLimit.RateLimiter.Allow` | packages/relay/src/rateLimit.ts:31-44 | a live bucket admits up to the limit and counts; otherwise a new bucket starts, after eviction if the map is full |
| `RateLimit.RateLimiter.EvictStale` | packages/relay/src/rateLimit.ts:46-60 | drops exactly the stale buckets, and if that is not enough also a tenth of the limit, none newer than those kept |

## Left out

- Real cryptography (`packages/crypto/src/primitives.ts`, labels in `kdf.ts`): replaced by symbolic terms; computational security is not expressible, and wiping anything but the shared ratchet pair is dropping a value.
- Low-order X25519 points: one representative, the all-zero key, stands for all keys the library rejects.
- The signature checks inside `verifyPreKeyBundle` (`identity.ts:263-319`): their joint outcome is the parameter `genuine`.
- The sealed-sender envelope (`envelope.ts`): an envelope that opens is taken to come from the sender it names.
- Conversation.DeliversIff: assumes `Permitted`, i.e. that no message starting a ratchet step names anything but the peer's current turn, because the code commits that step before authenticating; `CutOff.StrayTurnCutsOff`, `CutOff.CachedPacketSurvivesIff` and `StrayTurns.EarlierPacketSurvivesIff` show what happens without the assumption.
- Conversation.DeliveredOnceAsSent: assumes `Permitted` for the same reason.
- KeyMap.DecryptRefinesMap: excludes a header that steps back to a closed ratchet key under which keys are still cached, because the map is then overwritten; `CutOff.CachedPacketSurvivesIff` covers that case.
- Burst.TooFarShutsOut: speaks of runs in which the wiped secret does not reappear in the store; over a store lifetime it never does (`PreKeyStore.NewestGenerationsHeld`).
- Burst.LetterDeliversIff: follows one handshake, and payloads attributed to a party are ones it sealed; what other handshakes do to the responder's store may be anything, but the run is not followed beyond a replacement of its session.
- RelayStore.GivenThenPooled: for an address registered once whose uploads fit; a second registration replaces the pool, a record is stored uncapped, and an upload beyond the cap is cut (`RelayStore.UploadExact`).
- RateLimit.RateBound: for keys whose live bucket is never evicted; a limit below one still lets one call per window through, hence `PerWindow`.
- RateLimit.RateLimiter.EvictStale: the library sort is replaced by repeated selection of the oldest key, and ties among equally old buckets are broken arbitrarily where the source's stable sort keeps insertion order.
- Iteration order of maps and sets: the loops of `rememberSkipped`, `decryptFrame`, `evictStale` and `expire` visit entries in an arbitrary order.
- Cache index strings (`hex(key):number`): modelled as pairs.
- Floating point in `bucketSize`: `ceil(1.25 * n)` is exact integer arithmetic.
- Prekey ids across restarts: a new store starts at id 1, so id properties are about one store lifetime.
- OneTimeKeys.EachKeyGivenOnce: the device uploads what it generated once and in order; re-uploads by the application are not followed.
- Canonicality of decoding: presence bytes other than 0 and 1 and trailing bytes after an inner body are accepted as in the code, but only encode-then-decode is claimed.
- `decodeHeader`, `toHex`, `fromHex`, `concat`, `encodeFrameHeader`, `destroy*`, `countQueued`, `trackedKeys`, `getAccount`, `published`: they would add only easy members.
- `callManager.ts`, `webrtc.ts`, `messenger.ts`, `pairing.ts`, policies, vault, safety numbers, transports, server routing, screens and configuration: engine callbacks, thin wrappers or I/O.
