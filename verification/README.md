# Kingdom, verified

Kingdom is an end-to-end encrypted messenger: clients (`kdctl` on top of `libkd`) encrypt with an
X3DH-style key agreement, the key-distribution server (`kds`) keeps users, public key bundles and
messages, a Node.js sidecar batches message hashes into Merkle roots, and a contract records the roots so
that a web page can check a message later. This project models the parts that hold state, run
concurrently or compute something intricate, and proves what they promise together.

Every component is modelled twice where the source updates state: a class or method with the source's
fields, loops and branches, and functions on values that its `ensures` clauses tie it to. The theorems
are about the functions. Concurrency is modelled by step functions: a run is any sequence of events, so
"for every run" means for every interleaving.

| File | What it models |
|---|---|
| `Crypto.dfy`, `Bundles.dfy`, `LocalKeyStore.dfy`, `X3dh.dfy` | key agreement, bundles, local keys and their file (`libkd`) |
| `Pinning.dfy` | trust on first use (`libkd/src/Client.cc`) |
| `Database.dfy`, `Transactions.dfy`, `Handlers.dfy` | the server's tables, runs of transactions, interleaved request handlers |
| `Session.dfy` | one client's session: showing, listing and sending messages (`kdctl`) |
| `Delivery.dfy`, `DeliveryInvariant.dfy`, `Deliverability.dfy`, `DeliverySecrets.dfy`, `DeliveryRun.dfy` | the whole messenger as one machine, what its steps keep, the delivery theorems, the freshness of keys, and runs that get a message through |
| `Merkle.dfy`, `MessageIntegrity.dfy`, `Sidecar.dfy`, `VerificationPage.dfy`, `Pipeline.dfy`, `PipelineRun.dfy` | Merkle roots, the contract, the batching service, the page, all of them in one machine, and one message all the way through it |
| `RateLimiter.dfy`, `Authentication.dfy` | the two clocked caches that are pruned |
| `Base64Url.dfy`, `Decimal.dfy`, `Json.dfy`, `Jwt.dfy` | codecs and session tokens |
| `MessageStore.dfy` | the encrypted message cache on disk |

## Assumptions

- Cryptography is symbolic. A key pair is its secret number, a Diffie-Hellman output is the unordered
  pair of the two secrets, the key derivation is a free constructor over the list of outputs, and a
  ciphertext opens only with its own key, nonce and associated data. That the two sides agree is proved
  from this, not assumed. Fresh secrets in `Delivery` come from a counter.
- Hash functions are parameters. Where a theorem needs that they do not collide, it says so
  (`Merkle.NoCollisionBetween`, only of the pairs in the two trees compared; `Merkle.CollisionFree`,
  `Pipeline.NoTwoTextsHashAlike`, of all inputs). That a recorded message passes the page needs
  nothing of them; that nothing else passes does.
- JSON is modelled by values; the library's printing and parsing are a parameter that must be lawful:
  the header and claims it prints parse back (`Json.Lawful`). Clocks, random identifiers, addresses and transaction
  hashes are parameters of the operations that read them.
- `Delivery` assumes that local files are read and written successfully, that the server is honest, and
  that a client posts the recipient it encrypted for. `Deliverability.UnnamedRecipientsShareAPreKey`
  shows what goes wrong without the last one.

## Results that limit what the source promises

- A restart of the server runs a backfill that gives every participant of a conversation access to every
  message in it, including messages that were addressed to one participant
  (`Handlers.RestartWidensIff` has the exact condition, `Handlers.RestartWidensGroupMessage` an example).
- A post that names no recipient, or the sender, takes no prekey, so a second message made with the same
  prekey is stored too and one of the two can never be read
  (`Deliverability.UnnamedRecipientsShareAPreKey` has the exact condition,
  `Deliverability.UnnamedPairLosesOne` a pair of posts).
- The verification page trims what the user pastes, so a payload with white space at an end can fail
  although nothing changed it: it passes exactly if its trimmed text hashes like a payload of the batch
  (`Pipeline.ResolvedMessagePassesIff`; `PipelineRun.PaddedPayloadFails` follows one such message from
  posting to the page).
- The verifier accepts a token at its expiry second while the logout list has already forgotten it then, so
  a logged-out token is accepted in one case (`Authentication.LoggedOutTokenAcceptedOnlyAcrossExpiry` has the exact condition,
  `Authentication.LoggedOutTokenAcceptedAtExpiry` an input).
  Section 4.1.4 of RFC 7519 asks for refusal at the expiry itself; the model follows the code.
- A Merkle root binds the set of leaves, not their number or order
  (`Merkle.OddBatchRepeatsItsLast`, `Merkle.SiblingBlocksCommute`), and only among trees of one height
  (`Merkle.HeightIsNeeded`).
- The limiter's window is fixed, not sliding: twice the maximum, and never more, can pass within one window
  length (`RateLimiter.TwiceTheMaximumIsReached`).
- Two message stores opened on one path one after the other agree exactly if there was a file when the first
  was opened, or both drew the same salt (`MessageStore.SecondStoreReadsIff`; with a file they are one map,
  `MessageStore.TwoStoresAreOneMap`). If the openings overlap, the file must already be in the version 2 form:
  a version 1 file converted by both is lost to the second store (`MessageStore.OverlappingStoreReadsIff` has
  the exact condition, `MessageStore.OverlappingConversions` the file).

## Model

| member | source | states |
|---|---|---|
| Deliverability.EveryPollShowsTheText | kdctl/src/MainWindow.cc:451-530 | In every reachable world (any interleaving of sign-ups, logins, logouts, composes on bundles that go stale, accepted and refused sends, polls, deletions, revocations and restarts) a message that is stored or was listed shows its recipient exactly the text sent, its sender that text or nothing, and everyone else nothing |
| Deliverability.PreKeyOrText | libkd/src/LocalKeyStore.cc:619-680 | For every message ever posted with a one-time prekey, its recipient holds the prekey in memory or the exact text in the cache, never neither |
| Deliverability.ListingShowsEveryText | kdctl/src/MainWindow.cc:473-530 | Showing a whole listing, each message with the keys the one before left, loses no message that is for this user |
| Deliverability.ComposeSucceeds | kdctl/src/MainWindow.cc:920-926 | However many prekeys others have taken, fetching another user's bundle passes the pin and encrypting for it succeeds |
| Deliverability.SendSucceedsIff | kds/src/db/Database.cc:258-305 | A composed message commits exactly while its conversation exists and its prekey, if it has one, is still on offer |
| Deliverability.OnceShownStaysShown | kdctl/src/MainWindow.cc:451-530 | In every run, a row at hand that shows a user a text shows that user the same text in every later world, for senders and recipients, whatever happens between |
| Deliverability.AnsweredSendIsKept | kdctl/src/MainWindow.cc:928-931 | After a send that commits and is answered, the sender has the message's text in every later world |
| DeliveryRun.WritingSucceeds | kdctl/src/MainWindow.cc:902-934 | From every reachable world any user can write to any other in an existing conversation: the message commits, takes the prekey at the front of the bundle, and is listed for its recipient |
| DeliveryRun.ReadingSucceeds | kdctl/src/MainWindow.cc:451-530 | From every reachable world a listed message, once polled and shown, is in its recipient's cache with the text sent |
| DeliveryRun.FirstMessageArrives | kdctl/src/MainWindow.cc:902-934 | The run exists: the first message between two new users takes prekey 1 and is read |
| Deliverability.UnnamedRecipientsShareAPreKey | kds/src/db/Database.cc:265-268 | Of two messages made with one prekey of one user, the second post is refused exactly if both name that user, not the sender, as recipient; in every case, once one has been read the other is unreadable in every later session |
| Deliverability.UnnamedPairLosesOne | kds/src/db/Database.cc:265-268 | Two messages from one bundle, posted without recipient or naming the sender, are both stored, each readable alone, and the second fails once the first was read; naming the recipient refuses the second |
| Deliverability.ShownIff | kdctl/src/MainWindow.cc:451-471 | In a good world a client shows a logged message exactly if it is the recipient, or the sender with the text cached, and then shows the text sent |
| DeliveryInvariant.EveryWorldIsGood | libkd/src/LocalKeyStore.cc:517-681 | Every reachable world keeps: memory equals what a login would load, published prekeys are unused, posted prekeys are withdrawn and never shared, caches hold only texts of own messages as sent, pins hold the users' own keys |
| DeliveryInvariant.ReaderOf | libkd/src/LocalKeyStore.cc:593-681 | A sealed payload is readable by exactly its recipient, in its own context, while the recipient still has the prekey, and reads as its text |
| DeliveryInvariant.OfferedIsLive | kds/src/db/Database.cc:156-184 | A prekey on offer at the server is still with its owner, and no posted message for that owner uses it |
| DeliverySecrets.MessageKeysAreFresh | libkd/src/LocalKeyStore.cc:540-553 | Over every run a stored payload's ephemeral key is no client's key of any kind, and two different stored messages have different ephemeral keys and are sealed under different message keys |
| DeliverySecrets.NoSharedSecrets | libkd/src/LocalKeyStore.cc:349-372 | Over every run no two clients share a secret of any kind |
| X3dh.DecryptSucceedsIff | libkd/src/LocalKeyStore.cc:517-681 | Decrypting an encrypted message succeeds exactly for the holder of the bundle's secrets, in the same conversation, sender and recipient, against the sender's own identity, and gives the text; with and without one-time prekey |
| X3dh.EncryptedIsX3dh | libkd/src/LocalKeyStore.cc:524-591 | Field by field: a payload names the fresh ephemeral key and carries the text under the exchanges of sender identity with signed prekey, ephemeral with identity, with signed prekey and with the front prekey; and it exists only for a bundle whose own signing key signed exactly that signed prekey |
| X3dh.ReadsWithoutPreKeyIff | libkd/src/LocalKeyStore.cc:593-681 | Any payload, whoever made it: it reads as a text exactly if the text is sealed in this context under the three exchanges with the recipient's secrets, and the sender's bundle is signed and names its key |
| X3dh.ReadsWithPreKeyIff | libkd/src/LocalKeyStore.cc:619-642 | With a one-time prekey, exactly if there is a fourth exchange with the first prekey of that identifier |
| X3dh.EncryptSucceedsIff | libkd/src/LocalKeyStore.cc:524-551 | Encryption succeeds exactly for a valid bundle whose front entry, if any, is a prekey with a proper key |
| X3dh.KeysAgreeIff | libkd/src/LocalKeyStore.cc:545-553 | The two sides derive equal keys from different secrets exactly when the secrets match pairwise |
| X3dh.FailuresLeaveNoTrace | libkd/src/LocalKeyStore.cc:593-681 | Any run of attempts and logins ends, in memory and in the file, like the same run without its failed attempts |
| X3dh.MemoryMatchesFile | libkd/src/LocalKeyStore.cc:494-512 | With distinct identifiers, after any attempts and logins the keys in memory are what a login would rebuild from the file |
| X3dh.EraseMatchesReloadIff | libkd/src/LocalKeyStore.cc:319-344 | One erase in memory equals the next login's filter exactly if, before the call, no other prekey in memory has that identifier |
| X3dh.PreKeyDecryptsOnce | libkd/src/LocalKeyStore.cc:619-631 | After a successful decryption every payload that names the same prekey fails, in this session and all later ones |
| X3dh.SignatureInputBinds | libkd/src/LocalKeyStore.cc:151-168 | The bytes a prekey signature covers determine the 64-bit identifier and the key |
| X3dh.AppendUint64Le | libkd/src/LocalKeyStore.cc:151-157 | Appends the eight bytes of a number, least significant first |
| X3dh.LowestByteFirst | libkd/src/LocalKeyStore.cc:151-157 | The eight bytes are the value's digits to the base 256, the lowest first |
| Crypto.DhCommutes | libkd/src/LocalKeyStore.cc:238-246 | Both ends of an exchange get the same output |
| Crypto.DhBinds | libkd/src/LocalKeyStore.cc:238-246 | Equal outputs come from the same unordered pair of secrets |
| LocalKeyStore.CreateIdentity | libkd/src/LocalKeyStore.cc:349-372 | The loop makes twenty prekeys numbered from 1, and the keys of a new identity, from distinct secrets |
| LocalKeyStore.SignUpBundle | libkd/src/LocalKeyStore.cc:349-418 | A new identity is consistent, has distinct prekeys 1 to 20, and publishes only valid bundles |
| LocalKeyStore.SecretsAreDistinct | libkd/src/LocalKeyStore.cc:349-372 | A new identity's 23 key pairs have 23 different fresh secrets |
| LocalKeyStore.PublicBundle | libkd/src/LocalKeyStore.cc:219-236 | The published bundle lists the public half of every prekey in order, with a signature over the signed prekey |
| LocalKeyStore.KeepUnused | libkd/src/LocalKeyStore.cc:501-512 | A login keeps exactly the stored prekeys whose identifier is not recorded as used, in order |
| LocalKeyStore.LocalIdentity.LoadForLogin | libkd/src/LocalKeyStore.cc:420-515 | A session starts with the stored identity without its used prekeys |
| LocalKeyStore.LocalIdentity.EraseOneTimePreKey | libkd/src/LocalKeyStore.cc:319-344 | Erases the first prekey with the identifier from memory and records the identifier once in the file; does nothing when there is none |
| LocalKeyStore.LocalIdentity.Decrypt | libkd/src/LocalKeyStore.cc:593-681 | Decrypts against the keys before the call, and on success alone drops and records the prekey |
| Bundles.ConsumeIffOffered | kds/src/db/Database.cc:156-184 | Consuming succeeds exactly for a prekey on offer, withdraws it, leaves every other offer, and with distinct identifiers removes one entry |
| Bundles.ConsumeKeepsValidity | libkd/src/LocalKeyStore.cc:204-217 | Consuming neither breaks nor repairs a bundle |
| Pinning.KnownKeys.PinPublicKey | libkd/src/Client.cc:96-122 | Remembers the first anchor of a user, then accepts a key exactly if its anchor is the remembered one |
| Pinning.PinnedPairAcceptsIff | libkd/src/Client.cc:86-122 | A pinned pair of identity and signing key accepts exactly the bundles that have both keys, and stays pinned |
| Pinning.FirstKeyPinsItsPair | libkd/src/Client.cc:86-111 | A first key is accepted and pins its own pair; an entry that is no string accepts nothing |
| Pinning.AcceptedKeysShareAnchor | libkd/src/Client.cc:86-122 | Whatever the server answers, all keys accepted for one user in a run share one anchor |
| Pinning.ConsumeKeepsAnchor | libkd/src/Client.cc:86-94 | Consuming a prekey does not move a bundle's anchor |
| Pinning.HonestServerNeverRefused | libkd/src/Client.cc:96-122 | With valid bundles that only lose prekeys, no fetch is ever refused and every fetched bundle is valid |
| Database.Connection.constructor | kds/src/db/Database.cc:65-71 | Opening existing tables adds an access row for every message and participant without one, and changes nothing else |
| Database.Connection.ConsumeOneTimePreKey | kds/src/db/Database.cc:156-184 | The erase loop removes all entries with the identifier, reports whether there was one, and touches only this user's bundle |
| Database.Connection.Create | kds/src/db/Database.cc:258-305 | Consumes the prekey and inserts the message with its access rows in one transaction, or changes nothing |
| Database.Connection.Delete | kds/src/db/Database.cc:359-369 | Deletes a message and its access rows exactly for its sender in its conversation |
| Database.Connection.Revoke | kds/src/db/Database.cc:371-388 | Marks another user's unrevoked row of an own message, and reports whether it did |
| Database.Connection.SetDigest | kds/src/db/Database.cc:390-396 | Sets the digest of one existing message |
| Transactions.PreKeyUsedOnce | kds/src/db/Database.cc:258-305 | In any run of transactions no two committed messages to another user take the same prekey of that user |
| Transactions.PreKeysConserved | kds/src/db/Database.cc:156-184 | With distinct identifiers, prekeys published equal prekeys left plus prekeys taken by committed messages |
| Transactions.CommitsIff | kds/src/db/Database.cc:258-305 | Exactly when a message commits; an aborted one leaves all tables alone |
| Transactions.SecondCommitsIff | kds/src/db/Database.cc:258-305 | Of two posts that could each be committed, the second still can after the first exactly if they do not take the same prekey of the same user |
| Transactions.RevocationIsPermanent | kds/src/db/Database.cc:331-388 | A revoked row hides its message from that user forever, over all transactions and restarts |
| Transactions.RevokeHidesForGood | kds/src/db/Database.cc:371-388 | Revoking another user's unrevoked row of an own message hides it from that user at once and over all later transactions and restarts |
| Transactions.RevokeHidesOnly | kds/src/db/Database.cc:371-388 | Every other message and user is exactly as before, and without the right to revoke nothing changes |
| Transactions.DeletionIsPermanent | kds/src/db/Database.cc:359-369 | A deleted message is never listed again for anyone; its identifier is not given out twice |
| Transactions.DeleteHidesForGood | kds/src/db/Database.cc:359-369 | Deleting an own message hides it from everyone at once and for good |
| Transactions.DeleteHidesOnly | kds/src/db/Database.cc:359-369 | Every other message is exactly as visible as before, no row of the deleted one is left, and for anyone but the sender nothing changes |
| Transactions.PostedIsReadBy | kds/src/db/Database.cc:270-301 | A committed post is stored as posted, readable by exactly the sender and the named recipient, or without one by exactly the participants; no other message changes its readers |
| Transactions.LostOnlyToTheSender | kds/src/db/Database.cc:359-388 | A user loses sight of a message exactly by its sender's deletion or its sender's revocation for that user |
| Transactions.DigestChangesOnly | kds/src/db/Database.cc:390-396 | A digest update changes the digest of one existing message and nothing else |
| Transactions.ConversationHasExactly | kds/src/db/Database.cc:188-211 | A new conversation has exactly the given participants if all are users, and none exists otherwise |
| Handlers.EveryStateIsGood | kds/src/controller/Controller.cc:648-675 | Over all interleavings of separately locked checks and actions, and restarts, access rows belong to participants and a sender keeps an unrevoked row while the message exists |
| Handlers.NewServerStaysGood | kds/src/db/Database.cc:22-74 | In particular over all runs of a server that starts with empty tables |
| Handlers.RevokedIsNeverListed | kds/src/controller/Controller.cc:751-823 | Once a row is revoked no listing under way or later returns the message to that user |
| Handlers.RevokeRequestHidesForGood | kds/src/controller/Controller.cc:751-797 | Once a revocation request takes its last step no listing returns the message to its target, however handlers interleave |
| Handlers.DeleteRequestHidesForGood | kds/src/controller/Controller.cc:717-749 | Once a deletion request takes its last step no listing returns the message to anyone |
| Handlers.LostOnlyByRequest | kds/src/controller/Controller.cc:717-797 | No handler step takes a message from a reader but the last step of its own sender's request to do so |
| Handlers.ListingIsExact | kds/src/controller/Controller.cc:799-823 | A listing goes to a participant, holds exactly the conversation's messages with an unrevoked row for it, and so every existing message there that the user sent |
| Handlers.ReadableAfterRestartIff | kds/src/db/Database.cc:65-71 | After a restart exactly the participants whose row was not revoked can read a message |
| Handlers.RestartWidensIff | kds/src/db/Database.cc:65-71 | A restart changes who can read a message exactly for participants without a row |
| Handlers.RestartWidensGroupMessage | kds/src/db/Database.cc:278-301 | A message from 1 to 2 in a conversation of three becomes readable for 3 by a restart |
| Session.MainWindow.DecryptPlaintext | kdctl/src/MainWindow.cc:451-471 | What is shown, and the new cache, keys, sender keys and pins, for every combination of cached, refused, failing and successful |
| Session.MainWindow.LoadMessages | kdctl/src/MainWindow.cc:473-530 | Clears and refills the list with one entry per message, each shown with the state the one before left |
| Session.MainWindow.BeginSend | kdctl/src/MainWindow.cc:902-926 | Nothing without text or recipient; otherwise the recipient's key is pinned or compared and a payload made for it |
| Session.MainWindow.FinishSend | kdctl/src/MainWindow.cc:928-934 | The sender's text is cached under the identifier the server gave, and appended to the list |
| Session.PinnedUserIsEncryptedFor | kdctl/src/MainWindow.cc:920-926 | Whatever a server answers for a user whose keys are pinned, a payload is made only from a bundle with both pinned keys, and is sealed for that user's own identity and signed prekey, if no one else can sign with the user's signing key |
| Session.SenderIsPinned | kdctl/src/MainWindow.cc:458-461 | Showing a message pins its sender's first key; a sender with other keys than the pinned ones is shown as unreadable and changes nothing |
| Session.UnreadableIsMarked | kdctl/src/MainWindow.cc:500-522 | What cannot be read is marked and cannot be forwarded; what can be read is shown as it is |
| Session.ShownAgain | kdctl/src/MainWindow.cc:451-466 | A message shown once is shown the same at every later time, whatever the server answers, and changes nothing more |
| Session.FailureKeepsKeys | kdctl/src/MainWindow.cc:458-471 | A message that cannot be shown costs no key, no record and no cached text |
| Merkle.BuildMerkleRoot | blockchain/sidecar/index.js:35-49 | The level loop with sorting and padding in place computes the root by pairwise folding, for every non-empty list; nothing for an empty one |
| Merkle.SiblingBlocksCommute | blockchain/sidecar/index.js:30-49 | Exchanging two adjacent aligned blocks of 2^k leaves that lie wholly in the list leaves the root alone, for every k and length |
| Merkle.TreesBindLeaves | blockchain/sidecar/index.js:35-49 | Two lists with trees of equal height and equal roots have the same set of leaves, unless a pair hashed in one tree collides with a different pair hashed in the other |
| Merkle.RootBindsLeaves | blockchain/sidecar/index.js:35-49 | In particular for a pair hash without collisions |
| Merkle.OddBatchRepeatsItsLast | blockchain/sidecar/index.js:40 | A list of odd length above one has the root of the list with its last leaf repeated |
| Merkle.HeightIsNeeded | blockchain/sidecar/index.js:35-49 | A single inner digest has the root of the two leaves below it |
| Merkle.SortedPairCommutes | blockchain/sidecar/index.js:43-44 | The order within a pair does not matter |
| Merkle.SmallerFirst | blockchain/sidecar/index.js:43-44 | The root of two leaves is the hash of the one that comes first in text order followed by the other, in whichever order they are given |
| Merkle.OnlyOrderedPairsMatter | blockchain/sidecar/index.js:42-45 | On every level only pairs in text order are hashed: what the hash does to other pairs changes no root |
| MessageIntegrity.Contract.RecordBatch | blockchain/contracts/MessageIntegrity.sol:50-61 | Only the owner records, only non-empty batches; the next identifier, the entry and the event, or nothing |
| MessageIntegrity.RecordsAreFinal | blockchain/contracts/MessageIntegrity.sol:33-61 | A recorded batch is never overwritten by any later calls |
| MessageIntegrity.OnRecordIffByOwner | blockchain/contracts/MessageIntegrity.sol:40-61 | After any calls by anyone there is on record what was, and exactly the owner's non-empty batches with their roots and counts, under consecutive identifiers |
| MessageIntegrity.EventTellsTheBatch | blockchain/contracts/MessageIntegrity.sol:55-60 | The event names the recorded entry and carries its root, count and all its leaves |
| MessageIntegrity.RecordBindsLeaves | blockchain/contracts/MessageIntegrity.sol:57-59 | Equal root and count on record mean equal sets of leaves, unless the two trees contain a collision |
| Sidecar.Service.Record | blockchain/sidecar/index.js:131-146 | Queues the entry and marks it pending, or refuses an empty ciphertext |
| Sidecar.Service.BeginFlush | blockchain/sidecar/index.js:61-74 | Takes the whole queue as a batch with its root, and nothing from an empty queue |
| Sidecar.Service.FinishFlush | blockchain/sidecar/index.js:96-111 | Gives every entry of the batch the outcome, and no other entry |
| Sidecar.InExactlyOnePlace | blockchain/sidecar/index.js:61-112 | In every reachable state a recorded identifier is in the queue, in exactly one batch under way, or resolved, and in only one of these |
| Sidecar.SubmittedAtMostOnce | blockchain/sidecar/index.js:61-114 | No entry reaches the contract twice, even when flushes overlap and a transaction is mined after waiting for it threw |
| Sidecar.ResolvedIsFinal | blockchain/sidecar/index.js:96-111 | A confirmed or failed status never changes |
| VerificationPage.Verify | blockchain/verification/index.html:193-284 | The decision from trimmed inputs, the first batch event of the contract's address, the leaf among the emitted leaves and the rebuilt root |
| VerificationPage.ShowsLeafAndRoot | blockchain/verification/index.html:238-276 | The first flag says whether the trimmed text's leaf is among the leaves, the second whether the root rebuilds, both for the first batch event of the contract's own address; without one there is no verdict |
| VerificationPage.TrimDropsOnlySpace | blockchain/verification/index.html:194-195 | Trimming drops white space at both ends and nothing else |
| VerificationPage.LowerFolds | blockchain/verification/index.html:239 | Addresses and digests compare without case |
| Pipeline.EveryStateIsGood | kds/src/controller/Controller.cc:387-419 | Over all interleavings of creation, recording, overlapping flushes, resolver snapshots, deletions and restarts, every digest is empty, pending for its own message, or a transaction that recorded its payload |
| Pipeline.ResolverWrites | kds/src/controller/Controller.cc:401-412 | The resolver writes the transaction's hash for a confirmed answer and nothing for a failed one, into the message it asked about and no other |
| Pipeline.ResolvedMessagePasses | blockchain/verification/index.html:193-273 | In every reachable state a message whose digest is neither empty nor pending names a transaction that recorded its payload, and passes the page if the payload has no surrounding white space; nothing is assumed of the hashes |
| Pipeline.ResolvedMessagePassesIff | blockchain/verification/index.html:193-273 | Any such message passes exactly if its trimmed payload is not empty and hashes like a payload of its batch, which without collisions means is one |
| PipelineRun.OneMessagePassesIff | kds/src/controller/Controller.cc:387-419 | The run from posting to a resolved digest exists for every payload and all hash functions; alone in its batch, the message passes the page exactly if trimming leaves a text that hashes alike |
| PipelineRun.PaddedPayloadFails | blockchain/verification/index.html:194 | After the same run "x" passes the page, and "x" with a space at the end passes only if the two hash alike |
| PipelineRun.FailedMessageIsCleared | kds/src/controller/Controller.cc:409-412 | The run in which the batch fails ends with the message without a digest, neither pending nor resolved, for every payload |
| Pipeline.PageOnBatchIff | blockchain/verification/index.html:260-273 | For a recorded batch the page passes exactly the texts that hash like one of the batch |
| Pipeline.PageOnBatch | blockchain/verification/index.html:260-273 | Without collisions these are exactly the texts of the batch |
| RateLimiter.Limiter.IsRateLimited | kds/src/controller/Controller.cc:199-221 | The loop erases exactly the stale entries, then reopens or counts in the window; the verdict is that of the one-request run |
| RateLimiter.StaleEntriesGo | kds/src/controller/Controller.cc:205-211 | A request drops exactly the other entries whose window opened more than 300 seconds before it |
| RateLimiter.EvictionUnobservable | kds/src/controller/Controller.cc:203-210 | With a clock that does not go back, erasing stale entries changes no verdict of any run over any addresses |
| RateLimiter.AtMostTwiceTheMaximum | kds/src/controller/Controller.cc:199-221 | One address is admitted at most twice the maximum in any half-open interval of 60 seconds |
| RateLimiter.AtMostTheMaximumPerWindow | kds/src/controller/Controller.cc:211-220 | No window admits more than the maximum |
| RateLimiter.TwiceTheMaximumIsReached | kds/src/controller/Controller.cc:211-220 | For every maximum and address there is a run that is admitted twice the maximum within one window length, so the bound is tight |
| Authentication.TokenBlacklist.PruneExpired | kds/src/security/SecurityPredicates.hh:55-64 | The loop removes exactly the expired tokens |
| Authentication.TokenBlacklist.RevokeToken | kds/src/security/SecurityPredicates.hh:22-26 | Prunes, then lists the token until its own expiry, or until the second clock reading when it has none |
| Authentication.TokenBlacklist.IsRevoked | kds/src/security/SecurityPredicates.hh:28-32 | Prunes, then reports exactly the listed tokens |
| Authentication.TokenBlacklist.ValidateAuthenticated | kds/src/security/SecurityPredicates.hh:133-171 | The order of the checks: public paths, missing token, missing secret, signature and expiry (with the exception for a claim of the wrong type), logout list; and when the list is pruned |
| Authentication.PublicPathsAre | kds/src/security/SecurityPredicates.hh:138-150 | Exactly five fixed paths and the public-key path of any user number need no token |
| Authentication.ReportsExactlyTheLiveLogouts | kds/src/security/SecurityPredicates.hh:20-64 | With a clock that does not go back the pruned list reports exactly the tokens ever revoked that have not expired, and never another token |
| Authentication.LoggedOutTokenAcceptedOnlyAcrossExpiry | kds/src/security/SecurityPredicates.hh:161-168 | A revoked minted token is accepted later exactly if its expiry lies between the verifier's and the list's clock readings |
| Authentication.LoggedOutTokenAcceptedAtExpiry | kds/src/security/SecurityPredicates.hh:161-168 | An input: a token logged out when it was minted is let through when both clocks read its expiry |
| Base64Url.Base64UrlEncode | kds/src/security/JwtUtils.hh:29-49 | The in-place replacing and stripping loops compute the encoding |
| Base64Url.Base64UrlDecode | kds/src/security/JwtUtils.hh:55-88 | The replacing, padding and trimming loops compute the decoding, or fail; the block decoder in between drops white space around its input, as OpenSSL's does |
| Base64Url.RoundTrip | kds/src/security/JwtUtils.hh:29-88 | Decoding the encoding of any bytes gives them back |
| Base64Url.DigitsInOrder | kds/src/security/JwtUtils.hh:38-44 | The digit of every value is the one in table 2 of section 5 of RFC 4648 |
| Base64Url.SameNumber | kds/src/security/JwtUtils.hh:30-32 | Three bytes and their four digits are the same number, most significant first |
| Base64Url.BlockReadsIff | kds/src/security/JwtUtils.hh:69-74 | The block decoder reads exactly whole groups of base64 characters |
| Base64Url.EncodeAlphabet | kds/src/security/JwtUtils.hh:29-49 | An encoding holds only letters, digits, '-' and '_', so no '+', '/', '=' or '.' |
| Base64Url.EncodeInjective | kds/src/security/JwtUtils.hh:29-49 | Different bytes have different encodings |
| Decimal.ParseIdRoundTrip | kds/src/controller/Controller.cc:63-67 | A printed number parses to itself exactly when it fits into 64 bits |
| Decimal.ParseIdIff | kds/src/controller/Controller.cc:63-67 | Exactly the non-empty texts of digits whose number fits into 64 bits parse |
| Decimal.DecimalDigits | kds/src/controller/Controller.cc:170-176 | Digits are decimal, the most significant first |
| Decimal.ParseArrayText | kds/src/db/Database.cc:234-251 | The shrinking loop returns the numbers of the comma-separated tokens in order and skips the rest |
| Decimal.ArrayTextRoundTrip | kds/src/db/Database.cc:234-251 | The array text of any list of identifiers reads back as those that fit into 64 bits, in order |
| Decimal.SkipsWhatIsNoNumber | kds/src/db/Database.cc:239-250 | A token that is no number, or too large a one, is skipped |
| Jwt.SplitsAtItsDots | kds/src/security/JwtUtils.hh:111-121 | Three dot-free parts are found again, and only there |
| Jwt.SplitPartsAreDotless | kds/src/security/JwtUtils.hh:113-124 | A token that splits has exactly two dots, and its parts joined again are the token |
| Jwt.MintedTokenVerifies | kds/src/controller/Controller.cc:169-180 | A minted token verifies under its secret to its own claims exactly while the clock has not passed its expiry, taken modulo 2^64 |
| Jwt.MintedClaims | kds/src/controller/Controller.cc:169-180 | A minted token says, claim by claim, its user, name, time of issue and expiry |
| Jwt.MintedTokenNamesItsUser | kds/src/controller/Controller.cc:182-197 | The user read from a minted token is the one it was made for, exactly while it verifies |
| Jwt.VerifiedMeansSigned | kds/src/security/JwtUtils.hh:111-147 | A token verifies only if its last part is the keyed hash of everything before it, its header names HS256, and its expiry, converted to 64 bits from any kind of number, has not passed; the logout list reads that expiry exactly if it is an unsigned integer |
| MessageStore.Store.EncryptedAtPath | libkd/src/MessageStore.cc:273-295 | Opening takes salt and costs from the file if it has them, and converts a version 1 or damaged file |
| MessageStore.Store.GetPlaintext | libkd/src/MessageStore.cc:432-444 | The text of a well-formed entry, nothing, or the reading error |
| MessageStore.Store.SavePlaintext | libkd/src/MessageStore.cc:446-455 | Rewrites the file with one entry changed, or reports and leaves it alone |
| MessageStore.Store.DeletePlaintext | libkd/src/MessageStore.cc:457-461 | Rewrites the file without one entry, or reports and leaves it alone |
| MessageStore.CacheIsAMap | libkd/src/MessageStore.cc:224-461 | After any saves, deletes and reopenings the store reads back what a plain map holds, also from a version 1 file |
| MessageStore.ReadsTheLastSave | libkd/src/MessageStore.cc:432-461 | After any operations what is read for an identifier is the text of its last save that no delete followed, or what the file held; nothing if deleted, never there or malformed |
| MessageStore.ForeignFileIsUntouched | libkd/src/MessageStore.cc:273-430 | A file that is not this user's own is never changed, by any openings and operations |
| MessageStore.NewFileParameters | libkd/src/MessageStore.cc:224-244 | A new file records the salt drawn and the moderate cost parameters |
| MessageStore.OnlyOwnerReads | libkd/src/MessageStore.cc:328-391 | The file is readable with exactly its user's name and password |
| MessageStore.SecondStoreReadsIff | libkd/src/MessageStore.cc:273-295 | Of two stores opened one after the other, the second reads any save made through the first exactly if there was a file when the first was opened, or both drew the same salt |
| MessageStore.OverlappingStoreReadsIff | libkd/src/MessageStore.cc:279-290 | Of two stores that both read the parameters before either converts the file, the second reads the first one's saves exactly if the file already had parameters, or both drew the same salt; the first always reads |
| MessageStore.OverlappingConversions | libkd/src/MessageStore.cc:279-290 | An input: a version 1 file opened twice at once is lost to the second store |
| MessageStore.TwoStoresAreOneMap | libkd/src/MessageStore.cc:273-461 | With a file to open, saves, deletes and reopenings through two stores in any order read back, through both, what one plain map holds |
| MessageStore.ConcurrentFirstOpenings | libkd/src/MessageStore.cc:273-295 | The instance of a path with no file and one save |

## Left out

- The text and typing of JSON documents: a field of the wrong type, which makes the library throw in the
  source, is modelled where the branch matters (tokens, bundles, payloads, pins, used list) and not elsewhere.
- Jwt: what the platform makes of a floating-point expiry that does not fit into 64 bits is a parameter.
- RateLimiter: the counter is unbounded; overflow of a 32-bit count within one minute is not modelled.
- Database: gaps in identifier sequences after aborted transactions, conversions of identifiers to signed
  64-bit columns, unique user names and the order of a listing by timestamp.
- Database prekey entries that are objects without a numeric `id` of the right type, which make the server throw.
- Handlers: the comparison of the session user with the posted sender, length limits and response bodies;
  they only refuse more requests.
- Delivery: one machine per user, so two sessions of one user on different computers are not modelled; neither are
  length limits on payloads, and a post needs no participation check, which only adds runs.
- Session: the send form's trimming of its text, the client-side sort of a listing, and forwarding, which composes
  and posts like a send.
- LocalKeyStore: password encryption of the key file, file names from user names, file failures and a crash between
  erasing a prekey and saving the text.
- MessageStore: the store without encryption, file permissions and default paths.
- Sidecar and Authentication: a restart that loses the in-memory maps; each run is one process lifetime.
- MessageIntegrity and Sidecar: gas, reorganisations of the chain, and the length of hashes, which are texts of any length.
- Sidecar: requests without a conversation or message number, which are refused like an empty ciphertext.
- VerificationPage: several RPC endpoints and the rendering of results.
- Routing, TLS, JSON-RPC, widgets, dialogs, logging, memory zeroing, password policy and build scripts.
