# A verified model of the molch ratchet

molch implements the Axolotl ratchet with encrypted headers (README.md:8; its published successor is section 4 of
"The Double Ratchet Algorithm", header encryption). Two parties exchange packets over a network that may lose,
reorder, repeat and inject them. Every message has its own key. Keys of messages that have not arrived yet are
staged during a reception and stored once the message has been authenticated; a bounded, expiring store keeps them
for late packets.

The model has three layers.

- **Objects.** `Ratchet`, `Conversation`, `HeaderAndMessageKeyStore` and `PrekeyStore` change their fields step by
  step as the C++ classes do: two-phase reception, the chain-walk loop, the merging and trimming loops, the slots of
  the prekey array, the erasing loop. Each method is proved to do what a function on values says.
- **Functions on values.** `Send` and `Deliver` say what one send or one delivered packet does to the committed state
  of a ratchet, without purported values, flags of the reception or a staging area.
- **Runs.** `Protocol.Run` applies any sequence of events to a freshly created pair of parties: a party sends, any
  packet ever sent is delivered (again, late or never), the header of one packet arrives with the body of another,
  a foreign packet is injected, a party is exported and imported. The main theorems hold after every run. A packet is
  foreign when its body is sealed under a key that does not derive from the master key of this conversation
  (`Protocol.IsForeign`); its header and header key are arbitrary, so replayed headers and all packets of other
  conversations are covered.

Cryptography is symbolic. Keys form a free datatype (`Keys.Key`), a Diffie-Hellman result is an unordered pair of
private ids hashed with both public keys in role order, and a seal opens only under the very key that made it. Chain
and position can be read back off a message key (`Epoch`, `Position`), which is how key uniqueness is proved and how a
packet is assigned to its place in the accounting. No freshness of ephemerals is assumed for the ratchet theorems.

The invariant behind the run theorems (`Protocol.Inv`) says that both parties are views of one common history of
chains (`History.PartyView`), and that for each direction one equation holds for every key: how often it belongs to the
numbers the receiver has passed equals how often it was accepted, is stored, or was thrown away (`Protocol.Balanced`).

Clock readings, drawn key ids and random choices are parameters. Each key staged in a reception reads the clock
separately, and a commit reads it twice (`KeyStore.Instants`); the clock may even run backwards, except where a lemma
says otherwise (`NonDecreasing`, `Timely`).

Secrecy is derivability in this key algebra (`Knowledge.Derives`, proved to be the least closed set): somebody who gets
hold of one ratchet with its purported values knows its keys and its private ephemeral, and derives forwards from them.
The private identity keys are not part of a ratchet. The theorems of `Compromise` assume that every keypair was drawn
anew (`FreshRun`).

Eight properties have exact conditions.

- Forward secrecy. Of all messages that a party has sent or accepted, its ratchet gives away exactly those it has sent
  on its current chain, and only while the root key before that chain is left among the purported values: a commit
  copies the purported root key (lib/ratchet.cpp:380) and nothing clears it, and only the next header of a new chain
  replaces it. This happens with every reply (`Compromise.ForwardSecrecy`, `Compromise.RepliesAreExposed`).
- A rejected packet leaves the committed state unchanged, unless its header is malformed and a stored key opens it: the
  key is removed before the header is read. `Soundness.RejectionKeepsState` gives the condition in both directions,
  `Guarantees.MalformedHeaderCostsKey` an instance behind a run.
- Header and body are sealed separately. The header of one honest packet with the body of another is accepted if and
  only if both are of one chain and the body's key is stored, or the header is behind the receiver's number on the
  current chain and the body is exactly the next one. The second case exists because the chain walk takes no step for
  any number that is not ahead (lib/ratchet.cpp:229); the receiver's number then falls back and the rest of the chain
  is lost until the next one begins (`SplicedRuns.SplicingIsExact`, `SplicedRuns.SplicingStrandsChain`,
  `SplicedRuns.SplicingEndsWithChain`, `SplicedRuns.NextBodyIsAccepted`).
- A message is reported under its own number if and only if header and body were sent together
  (`SplicedRuns.NumberIsOwn`).
- A ratchet and its imported copy give the same result for every packet, except for the error code of a packet whose
  unreadable header is sealed under the all-zero key, before the first receive chain
  (`Soundness.DeliverIsBlindToAbsence`, `Guarantees.ReloadChangesErrorCode`).
- An honest packet is accepted if and only if it is acceptable: stored, or ahead within 500 on the current chain, or on
  the next chain within 500 on both chains (`Guarantees.DeliveryIsExact`).
- A commit drops a store entry if and only if it is outdated at one of its two readings or at least 1000 entries follow
  it (`KeyStore.SettleDropsExactly`).
- Unpadding accepts exactly the buffers that end in a marker and zeros within their last block (`Padding.Unpad`).

Dafny's automatic induction is switched off for all lemmas, so every inductive step is written out.

## Model

| member | source | states |
|---|---|---|
| Guarantees.Agreement | lib/ratchet.cpp:116-180 | after every run the root keys are at most one Diffie-Hellman step apart and equal when none, both parties are never about to start a chain at once, and each receiver is on its sender's chain (with matching keys and a number not ahead of it) or exactly one chain behind |
| Guarantees.RootChainIsFixed | lib/diffie-hellman.cpp:28-71 | after every run the root chain begins with the three hashed secrets of the setup, each link is the previous root key with the secret of the two ephemerals around it, hashed with Alice's public key before Bob's, and both root keys come from this chain |
| Guarantees.DeliveryIsExact | lib/conversation.cpp:194-249 | in every reachable state a packet ever sent is accepted exactly when it is acceptable, with exactly its plaintext and both numbers; otherwise nothing changes, and the error says whether it was more than 500 ahead |
| Guarantees.UndeliveredIsDeliverable | lib/ratchet.cpp:266-350 | whatever was lost, reordered or repeated, a packet not accepted yet, whose key was not thrown away and whose gaps are within the limits, is accepted now |
| Guarantees.Accounting | lib/ratchet.cpp:260-264 | after every run each packet is exactly one of: accepted, openable with a stored key, given up, ahead of the receiver; no packet was accepted twice |
| Guarantees.NeverAcceptedTwice | lib/conversation.cpp:169-192 | a packet that was accepted is rejected in every later state |
| Guarantees.KeysAreUnique | lib/key-derivation.cpp:37-77 | over a whole run and both directions message keys never repeat, header keys repeat exactly within a chain, and no header key is a message key |
| Guarantees.ConversationsAreSeparate | lib/key-derivation.cpp:84-171 | after any runs of two conversations that differ in an identity or a first ephemeral, no packet ever sent in one is accepted in the other, under any header, and nothing changes |
| Guarantees.MasterKeyStays | lib/key-derivation.cpp:37-77 | after every run the root keys of both parties derive from the master key of their setup |
| SplicedRuns.SplicingIsExact | lib/packet.cpp:230-330 | in every reachable state the header of any sent packet with the body of any other is accepted exactly when the body's key is stored or next, under a header of its chain; its reported number is then never its own, its own packet is rejected afterwards, and otherwise nothing changes |
| SplicedRuns.NumberIsOwn | lib/conversation.cpp:234-237 | an accepted message is reported under its own number if and only if header and body were sent together |
| SplicedRuns.SplicingStrandsChain | lib/ratchet.cpp:396-401 | after a splice with the next body, every packet of that chain, whether sent before or after the splice, is rejected unless its key is stored |
| SplicedRuns.SplicingEndsWithChain | lib/ratchet.cpp:296-345 | and a packet of the next chain is then accepted exactly when its gaps are within the limits, counted from the number the receiver fell back to, which makes the receiver a view of the common history again |
| Splicing.RecombinationIsDelivery | lib/conversation.cpp:169-249 | except for that case, any header with any body of the conversation, reflected packets included, does what the delivery of the body's own packet does, or nothing |
| Splicing.ReflectionIsRejected | lib/conversation.cpp:169-249 | a party rejects its own packets without any change |
| SplicedRuns.NextBodyIsAccepted | lib/ratchet.cpp:229-249 | a run after which a header behind the receiver with the next body is accepted although no key is stored |
| Guarantees.CanAlwaysSend | lib/ratchet.cpp:116-180 | after every run sending succeeds, a private ephemeral that would be used matches its public one, and a receive header key is present exactly when a receive chain key is |
| Guarantees.CanAlwaysReload | lib/ratchet.cpp:410-752 | after every run, whatever the purported values hold, export and import succeed, and the imported ratchet answers all further calls like the original, error codes included except for null-sealed packets |
| Guarantees.ReloadChangesErrorCode | lib/key.hpp:245-250 | the one error code that reloading changes, on a packet to a newly created Bob |
| Compromise.ForwardSecrecy | lib/ratchet.cpp:376-401 | after every run with fresh keypairs, of all packets a party has sent or accepted, its ratchet gives away the message key if and only if the party sent it on its current chain and the root key before that chain is left among the purported values |
| Compromise.SnapshotRevealsExactly | lib/ratchet.hpp:36-59 | for every packet sent before or after, by either side, exactly when a ratchet taken after a run gives away its message key |
| Compromise.CompromiseHeals | lib/ratchet.cpp:121-137 | of all chains behind the root key that was learned, exactly the partner's next one is open, and not even that one if the ratchet was about to start a chain |
| Compromise.RepliesAreExposed | lib/ratchet.cpp:380 | whoever accepts a packet of a new chain and then answers holds what derives the key of the answer, whatever keypairs were drawn |
| Compromise.FirstReplyIsExposed | lib/ratchet.cpp:380 | a concrete run of three events after which Bob's ratchet gives away the key of his own first answer |
| Secrecy.DerivedMessageKeys | lib/key.hpp:418-425 | for a party that is a view of the history: which message keys of which chains can be derived from its ratchet, in both directions |
| Secrecy.DerivedLinks | lib/key-derivation.cpp:37-77 | of all links of the root chain at most two can be derived: the partner's next one and, with the root key left over, the one of the current send chain |
| Secrecy.KnownIsClassified | lib/ratchet.hpp:36-59 | every secret a ratchet holds is of one kind, and only the chain keys and stored keys belong to positions not yet passed |
| Leftovers.RunLeaves | lib/ratchet.cpp:266-403 | after every run, whatever packets arrived, the purported root key is the committed one, the one before it after a send, or a later one, and the purported chain key is never behind |
| Knowledge.DerivesIsLeast | lib/key-derivation.cpp:37-77 | what `Derives` says can be derived is in every set closed under the derivations |
| Knowledge.DerivesMessageKey | lib/key.hpp:418-425 | a message key is derivable exactly from itself, from a chain key not behind it, or from what its chain starts from |
| Guarantees.ApplyKeepsInv | lib/conversation.cpp:145-249 | sending, delivering, recombining, injecting anything not sealed under this conversation's secrets, and reloading keep both parties views of one history and both directions balanced |
| Guarantees.SendingKeepsInv | lib/ratchet.cpp:116-180 | a send extends the common history by one message or by one chain with one message |
| Steps.HonestDelivery | lib/conversation.cpp:169-249 | for a party that is a view of the history, acceptance of any packet of the other side is equivalent to `Acceptable` |
| Steps.HeaderOpens | lib/conversation.cpp:200-217 | whoever sent a packet, the current header key opens it exactly if it is of the current chain, the next one exactly if it is of the next chain, and then the ratchet flag is off |
| Steps.CurrentFits | lib/ratchet.cpp:208-251 | on the current chain the derived message key fits exactly the numbers not behind the receiver |
| Steps.ReceiverDerivesLink | lib/ratchet.cpp:322-331 | the receiver of a new chain derives the sender's root, next header and chain key |
| Steps.AcceptanceKeepsReceiver | lib/ratchet.cpp:356-403 | an accepted packet moves the receiver to the next view, and the keys passed grow by the accepted one and the staged ones, each of which is stored or dropped |
| Steps.InjectionIsRejected | lib/conversation.cpp:194-249 | a packet whose body key does not derive from the conversation's master key is rejected without any change, whatever header it carries under whatever header key |
| Growth.SendKeepsView | lib/ratchet.cpp:116-180 | the sent packet carries the next number of the sender's newest chain and the length of its previous one |
| Growth.SentPacketIsNew | lib/ratchet.cpp:152-177 | no earlier packet of the sender has the same message key |
| History.LinkEpoch | lib/key-derivation.cpp:54-66 | the j-th link of the root chain contains exactly j Diffie-Hellman steps |
| History.HeaderKeysDiffer | lib/key-derivation.cpp:105-168 | header keys of different chains differ |
| History.PassedMeaning | lib/ratchet.cpp:396-401 | the keys passed by a receiver are exactly those below its number on its chain and all those of its earlier chains, once each |
| Timing.FreshKeysAreKept | lib/header-and-message-keystore.cpp:145-218 | in a run whose clock does not run backwards and passes less than expiration time and maximum age together during a reception, a reception throws away only keys stored by earlier ones, oldest first |
| Timing.StoresAreDated | lib/header-and-message-keystore.cpp:39-41 | in such a run no stored key expires later than the last reading plus one month |
| Timing.OldKeysAreGone | lib/header-and-message-keystore.cpp:198-218 | after any run and one more such acceptance, under any clocks, each stored key was staged at a reading of a reception less than two months before both readings of the commit |
| Timing.StoredWereStaged | lib/header-and-message-keystore.cpp:39-41 | after every run the date of each stored key is a month past a reading of one of the party's receptions |
| TwoPhase.TwoPhasesAreOneDelivery | lib/ratchet.cpp:266-403 | staging and committing together refine one delivery on the committed state, for any leftover purported values; both phases take the same branch |
| TwoPhase.CommitFailsExactly | lib/ratchet.cpp:369-394 | for any ratchet and any purported values, the one case in which a commit fails, and what it has changed by then |
| TwoPhase.StageSkippedIsStore | lib/ratchet.cpp:208-251 | one chain walk adds at most 500 keys and keeps the staging area sorted |
| Soundness.SendKeepsSound | lib/ratchet.cpp:116-180 | a sound party's send succeeds with any drawn keypair, leaves the ratchet flag off and the party sound |
| Soundness.DeliverKeepsSound | lib/ratchet.cpp:266-403 | no packet whatsoever takes a party out of a sound state |
| Soundness.CreatedIsSound | lib/ratchet.cpp:41-114 | creating a ratchet for two different identities succeeds in a sound state |
| Soundness.RejectionKeepsState | lib/conversation.cpp:180-183 | a rejected packet leaves the committed state unchanged if and only if it is not a malformed header that a stored key opens |
| Soundness.RejectionCode | lib/conversation.cpp:194-249 | the error code of every rejected packet whatsoever |
| Soundness.SendFailsExactly | lib/ratchet.cpp:116-180 | in an arbitrary state, exactly when sending fails and with which code |
| Guarantees.MalformedHeaderCostsKey | lib/conversation.cpp:180-183 | Bob sends twice and Alice gets the second packet; then a malformed header under the first packet's keys is rejected, yet Alice's only stored key is gone and the first packet, readable before, is rejected |
| Soundness.DeliveryDropsForAReason | lib/header-and-message-keystore.cpp:198-218 | a key is thrown away only for its age or in favour of a full store of keys that expire no earlier |
| Soundness.AcceptanceLeavesFresh | lib/header-and-message-keystore.cpp:198-218 | after an acceptance that no stored key opened, no key in the store was a month past its date at either reading of the commit |
| Soundness.StagingFits | lib/ratchet.cpp:309-344 | one reception stages at most 500 keys of the old chain and exactly the skipped ones, at most 500, of the new one; none pushes another out |
| Soundness.SendIsBlindToAbsence | lib/key.hpp:349-360 | sending does not depend on how an absent key is represented |
| Soundness.DeliverIsBlindToAbsence | lib/key.hpp:349-360 | neither does the verdict on any packet, nor what is dropped; error codes differ exactly for a null-sealed packet when one of two absent receive header keys counts as present |
| RatchetState.StagesInOrder | lib/ratchet.cpp:229-236 | under a clock that does not run backwards, staging appends exactly the message keys of successive positions, in order |
| RatchetState.StageAddsRange | lib/ratchet.cpp:208-251 | under any clock, staging from a position adds exactly the keys up to the end position, each once |
| RatchetState.StageInserts | lib/header-and-message-keystore.cpp:164-188 | a freshly staged key is never outdated and evicts nothing |
| Keys.WalkComposes | lib/key.hpp:423-425 | walking i and then j steps of a chain is walking i + j |
| Keys.MessageKeyDecodes | lib/key.hpp:418-425 | a message key determines its position and its chain's epoch |
| KeyDerivation.InitialKeysMirror | lib/key-derivation.cpp:84-171 | for all identities and ephemerals, each side's initial send keys are the other's receive keys |
| KeyDerivation.DiffieHellmanAgrees | lib/diffie-hellman.cpp:28-71 | from its own private key each role computes the written-out hash of the shared secret, Alice's public key and Bob's public key, in this order |
| KeyDerivation.ErasedKeyIsUseless | lib/ratchet.cpp:390-392 | an erased private key yields a secret that no private key yields |
| ConversationObject.FirstContact | lib/conversation.cpp:77-143 | whoever initiates, both ratchets mirror each other with opposite roles, they are the pair that runs start from, and the first packet yields the first message with both numbers zero |
| ConversationObject.Conversation.CreateSendConversation | lib/conversation.cpp:77-111 | refuses prekey lists of the wrong size and a partner with the own identity; otherwise creates the ratchet on the chosen prekey and sends the first message with the prekey metadata |
| ConversationObject.Conversation.CreateReceiveConversation | lib/conversation.cpp:113-143 | looks up (and thereby deprecates) the prekey first, then creates the mirrored ratchet and delivers the packet; every error is passed on |
| ConversationObject.Conversation.Send | lib/conversation.cpp:145-167 | between receptions sending always succeeds and is one `Send` on the committed state |
| ConversationObject.Conversation.TrySkippedKeys | lib/conversation.cpp:169-192 | the first stored key that opens the packet is used and removed |
| ConversationObject.Conversation.ReceiveWithHeader | lib/conversation.cpp:219-239 | staging, decrypting and committing are one `Deliver` on the committed state |
| ConversationObject.Conversation.Receive | lib/conversation.cpp:242-249 | for every packet the imperative reception is one `Deliver` on the committed state with the same result, leaves the purported values of `PurportedAfter`, and ends with staging empty and decryptability not tried |
| RatchetObject.Ratchet.Create | lib/ratchet.cpp:41-114 | creates exactly the derived state, at rest, or refuses two equal identities |
| RatchetObject.Ratchet.FillStorage | lib/ratchet.cpp:72-103 | the key storage of a new ratchet, filled step by step, with absent keys cleared |
| RatchetObject.Ratchet.GetSendData | lib/ratchet.cpp:116-180 | changes exactly the sending half of the committed state, on errors too |
| RatchetObject.Ratchet.SetHeaderDecryptability | lib/ratchet.cpp:190-197 | sets the decryptability exactly once between receptions |
| RatchetObject.Ratchet.StageSkippedKeys | lib/ratchet.cpp:208-251 | the loop stages the keys of all skipped positions and returns the keys behind them, or refuses more than 500 without staging |
| RatchetObject.Ratchet.Receive | lib/ratchet.cpp:266-350 | never changes the committed state; leaves exactly the purported values, staged keys and result of the first phase, after each of its errors too |
| RatchetObject.Ratchet.SetLastMessageAuthenticity | lib/ratchet.cpp:356-403 | forgets the staged keys, or commits exactly the second phase with its two clock readings |
| RatchetObject.Ratchet.ExportProtobuf | lib/ratchet.cpp:410-548 | yields the record of the whole ratchet, or the error for a missing key |
| RatchetObject.Ratchet.ImportProtobuf | lib/ratchet.cpp:550-752 | holds exactly what the record says, or reports the error of the first field, in reading order, that is missing, invalid or copied from an empty span |
| RatchetObject.Ratchet.ImportNumbers | lib/ratchet.cpp:553-623 | imports numbers and flags in order; an unlisted header decryptability is an invalid value |
| RatchetObject.Ratchet.ImportKeys | lib/ratchet.cpp:625-737 | imports the keys in order, with the role-dependent errors for receive header key and chain keys |
| RatchetObject.Ratchet.ImportStore | lib/header-and-message-keystore.cpp:241-253 | imports all entries, or none when one is incomplete |
| Persistence.ExportThenImport | lib/ratchet.cpp:410-752 | export and import succeed on every sound ratchet, at rest or not, and only turn absent keys into present all-zero ones |
| Records.RecordShowsHistory | lib/ratchet.cpp:410-548 | after every run the exported record shows the common history field by field: root, header and chain keys, ephemerals, identities, numbers, flag and role, and for each stored key its message key, its header key and its date |
| Records.ImportGivesView | lib/ratchet.cpp:550-752 | any record that shows the history this way, whoever wrote it, is imported to a party of this history |
| Records.WaitingRecord | lib/ratchet.cpp:410-548 | a record written while the first packet of a chain waits for its authentication shows that chain in its purported fields and staged keys |
| Records.ImportThenCommit | lib/ratchet.cpp:356-403 | importing such a record, whoever wrote it, and accepting what it waits for gives a party on the new chain |
| Persistence.ExportedReception | lib/ratchet.cpp:410-548 | what the record of any ratchet says of the reception in progress: validity, decryptability, every purported value and the staged keys in order |
| Persistence.ImportSucceedsExactly | lib/ratchet.cpp:550-752 | exactly which records can be imported |
| Persistence.ImportErrorsExactly | lib/ratchet.cpp:550-752 | which error every other record gets |
| Persistence.ExportFailsExactly | lib/ratchet.cpp:410-548 | exactly which ratchets can be exported, and the error otherwise |
| Persistence.RevivedIsAlike | lib/key.hpp:245-250 | the imported ratchet is alike, sound and at rest if the original was |
| Persistence.ExportIsStable | lib/ratchet.cpp:410-548 | exporting the imported ratchet gives the same record |
| Persistence.ReloadIsInvisible | lib/ratchet.cpp:410-752 | from any ratchet at rest, any sequence of sends and receptions gets the same answers from it and from its imported copy, error codes included except for null-sealed packets |
| Persistence.EntriesRoundTrip | lib/header-and-message-keystore.cpp:224-253 | a store survives export and import in order |
| KeyStore.TrimDropsExactly | lib/header-and-message-keystore.cpp:198-218 | trimming a sorted store drops an entry if and only if a month has passed since its date or at least 1000 entries follow it |
| KeyStore.TrimIsIdempotent | lib/header-and-message-keystore.cpp:198-218 | trimming twice at one time is trimming once, and leaves a sorted store of at most 1000 entries |
| KeyStore.SettleDropsExactly | lib/ratchet.cpp:260-264 | the two trims of a commit drop an entry if and only if 2678400 seconds have passed since its date at one of the two readings or at least 1000 entries follow it |
| KeyStore.SettledAreFresh | lib/header-and-message-keystore.cpp:198-218 | after a commit of sorted stores no entry is left that was a month past its date at either reading |
| KeyStore.SettleKeepsExactly | lib/header-and-message-keystore.cpp:145-157 | of at most 1000 entries in all, a commit keeps exactly those |
| KeyStore.SettleConserves | lib/ratchet.cpp:260-264 | every key that enters a commit is afterwards stored or among the discarded ones, with its multiplicity |
| KeyStore.SettleIsStore | lib/ratchet.cpp:260-264 | a commit of sorted stores leaves a sorted, bounded and trimmed one |
| KeyStore.CombineIsStore | lib/header-and-message-keystore.cpp:145-157 | a merging add of sorted stores is sorted, bounded and already trimmed |
| KeyStore.DiscardedIsOldOrCrowdedOut | lib/header-and-message-keystore.cpp:198-218 | whatever a commit discards is outdated or expires no later than each of the 1000 entries kept |
| KeyStore.StagedKeysSurvive | lib/header-and-message-keystore.cpp:145-157 | staged keys that are newest, at most 1000 and not outdated all survive behind what is left of the stored ones |
| KeyStore.InsertSplits | lib/header-and-message-keystore.cpp:176-187 | insertion puts the entry at its upper bound |
| KeyStore.AddIsExact | lib/header-and-message-keystore.cpp:164-188 | adding an entry a month past its date changes nothing; any other goes behind the entries that expire no later, and in a full store the entry that expires first gives way |
| KeyStore.HeaderAndMessageKeyStore.AddStore | lib/header-and-message-keystore.cpp:145-157 | the merging add on the object, keeping it sorted and bounded whatever the clock says |
| KeyStore.HeaderAndMessageKeyStore.AddEntry | lib/header-and-message-keystore.cpp:164-188 | adding one entry: nothing if outdated, evicting the oldest if full, in sorted position otherwise |
| KeyStore.HeaderAndMessageKeyStore.UpperBound | lib/header-and-message-keystore.cpp:180-184 | everything before the bound expires no later than the date, everything behind it later |
| KeyStore.HeaderAndMessageKeyStore.Remove | lib/header-and-message-keystore.cpp:190-192 | removes exactly the entry at the index |
| KeyStore.HeaderAndMessageKeyStore.RemoveOutdatedAndTrimSize | lib/header-and-message-keystore.cpp:198-218 | the cut found by the loop is the one `Trim` makes |
| PrekeyStorage.RotateIsExact | lib/prekey-store.cpp:275-321 | a rotation throws away exactly the deprecated keys whose date has passed, renews exactly the expired slots and deprecates what they held for an hour |
| PrekeyStorage.RotateLeavesNoneExpired | lib/prekey-store.cpp:295-318 | after a rotation no active or deprecated key had expired when it began, even where the caches skipped a scan |
| PrekeyStorage.RotationCacheExactly | lib/prekey-store.cpp:295-306 | the cached active date behind a rotation: unchanged when no slot had expired, otherwise the earliest of all slots as they stood when the last expired one was dated |
| PrekeyStorage.DeprecateKeepsCaches | lib/prekey-store.cpp:221-233 | the cached active date stays a lower bound although it is refreshed before the new key is generated; the cached deprecated date stays the minimum |
| PrekeyStorage.DeprecateCachesExactly | lib/prekey-store.cpp:221-233 | both cached dates behind a deprecation are exactly the earliest: of the deprecated keys, and of the slots while the deprecated key still counts as one of them |
| PrekeyStorage.LookupOfOthers | lib/prekey-store.cpp:253-258 | looking up a key that no slot holds leaves the whole store as it is, and is not found exactly when it is not deprecated either |
| PrekeyStorage.DeprecateKeepsKeys | lib/prekey-store.cpp:221-233 | every private key matches its public key and no public key occurs twice |
| PrekeyStorage.UnexpiredIsExact | lib/prekey-store.cpp:310-316 | erasing keeps exactly the entries whose date has not passed |
| PrekeyStorage.NothingToDrawBack | lib/prekey-store.cpp:278-293 | under a clock that does not run backwards no date is too far in the future |
| PrekeyStorage.DrawBackIsExact | lib/prekey-store.cpp:278-293 | under any clock, which dates are drawn back and to what |
| PrekeyStorage.ScanIsExact | lib/prekey-store.cpp:296-306 | the scan renews exactly the expired slots and appends their keys in order |
| PrekeyStorage.PrekeyStore.DeprecateSlot | lib/prekey-store.cpp:221-233 | deprecation in place: slot, deprecated keys and both caches |
| PrekeyStorage.PrekeyStore.GetPrekey | lib/prekey-store.cpp:235-259 | finds active keys first, then deprecated ones, and deprecates an active one |
| PrekeyStorage.PrekeyStore.List | lib/prekey-store.cpp:261-273 | lists all public keys in slot order |
| PrekeyStorage.PrekeyStore.Rotate | lib/prekey-store.cpp:275-321 | the rotation in place, with its future-date branches |
| PrekeyStorage.PrekeyStore.EraseExpired | lib/prekey-store.cpp:310-316 | the erasing loop terminates despite the step back of its index and keeps exactly the unexpired keys |
| PrekeyRuns.CreatedInv | lib/prekey-store.cpp:153-168 | a created store holds one hundred distinct matching keypairs and sound caches |
| PrekeyRuns.ReloadCachesExactly | lib/prekey-store.cpp:170-204 | importing computes both cached dates anew as the earliest ones |
| PrekeyRuns.RunKeepsInv | lib/prekey-store.cpp:206-321 | over every run: one hundred matching keypairs, no public key twice, sound caches |
| PrekeyRuns.RotationAfterRun | lib/prekey-store.cpp:275-321 | whatever came before, a rotation leaves nothing that had expired when it began |
| PrekeyRuns.ListedPrekeyResolves | lib/prekey-store.cpp:221-321 | through runs of any length, a prekey active at the start stays in its slot until the reading at which a lookup or a rotation takes it out, and is then deprecated with exactly that date plus one hour until the first rotation that begins behind that date; exactly till then it resolves to its private key, afterwards it is not found |
| PrekeyRuns.LeftPrekeyIsForgotten | lib/prekey-store.cpp:308-318 | one more rotation that begins behind that date makes the prekey not found |
| PrekeyRuns.UnusedPrekeyStays | lib/prekey-store.cpp:295-306 | a prekey that nobody looks up keeps its slot until a rotation begins behind its date |
| PrekeyRuns.GettingMovesOneKey | lib/prekey-store.cpp:241-251 | using an active prekey moves exactly that key to the deprecated ones for 3600 seconds, puts a new one for 2678400 seconds in its slot and leaves the other slots unchanged |
| Padding.Pad | lib/packet.cpp:193-201 | padding passes both size checks and gives marker and zeros up to the least multiple of 255 longer than the message |
| Padding.SodiumPad | lib/sodium-wrappers.cpp:384-399 | exactly when the wrapper and the library accept, and which bytes they write |
| Padding.Unpad | lib/packet.cpp:302-329 | accepts exactly the padded buffers, and refuses short ones |
| Padding.PaddingIsUnambiguous | lib/packet.cpp:324-326 | a padded buffer determines its message |
| Padding.PadThenUnpad | lib/packet.cpp:193-201 | for every message, also one that ends in 0x80 or zeros, unpadding undoes padding |
| Endianness.BigEndianRoundTrip | lib/endianness.hpp:49-82 | the encoding does not depend on the byte order of the machine, and any machine reads the number back |
| Endianness.BytesAreDigits | lib/endianness.hpp:49-63 | the encoding is most significant byte first: each byte is the digit of its weight |
| PrekeyList.SignedValueIsTwosComplement | lib/molch.cpp:426-429 | eight bytes are read as a two's complement number |
| Endianness.ToBigEndian | lib/endianness.hpp:49-63 | the bytes of the memory, reversed on little-endian machines |
| Endianness.FromBigEndian | lib/endianness.hpp:68-82 | refuses inputs of another size; otherwise the memory holds the input, reversed on little-endian machines |
| PrekeyList.Create | lib/molch.cpp:104-127 | the signed list is signature, identity, one hundred prekeys and the date three months ahead |
| PrekeyList.ListRoundTrip | lib/molch.cpp:413-441 | a created list has signature, identity, prekeys and date at their byte positions, is accepted exactly while its date is not past, and gives back the identity |
| PrekeyList.AcceptedExactly | lib/molch.cpp:413-441 | over all lists whatsoever: accepted exactly when long enough, signed and not past its date, with the identity behind the signature; a list whose first 64 bytes are not the signature of the rest fails verification |
| PrekeyList.AcceptedIsOwners | lib/molch.cpp:413-441 | if the owner of the key signs only lists of its own identity, whatever list is accepted gives this identity and is one of the owner's lists, not past its date |
| PrekeyList.ConcatAt | lib/conversation.cpp:90-92 | the i-th stretch of 32 bytes of the concatenated prekeys is the i-th prekey |

## Left out

- Splicing, at run level: a run recombines headers and bodies of the conversation freely, except for a header behind the
  receiver with exactly the next body, which would end the agreement that runs keep. That splice is delivered once,
  behind any run (module `SplicedRuns`).
- Secrecy beyond derivability of message keys from one ratchet: what somebody learns from both ratchets, from identity
  keys, from guessed keys or from traffic.
- libsodium, memory protection, zeroing of temporaries and failing cryptographic calls are not part of this model.
- Protobuf packing, header packing and packet metadata checks: headers, packets and records are datatypes, with a
  malformed header, a packet that does not unpack and missing record fields as cases.
- Sending, at run level: a send that would make a 32-bit message counter wrap is not performed. `Increment32` models the
  wrap-around itself. The sum of a number and 500 is 64 bits wide and not truncated.
- RatchetObject.Ratchet.ImportProtobuf: a key field of the wrong length counts as missing. The keys live in a `Storage`
  value that is reassigned, as the protected block of memory is one unit.
- RatchetObject.Ratchet.StageSkippedKeys: adding a key dates it at one clock reading and checks its age at another
  (`AddKeys` takes both); staging passes the same reading twice, so that a fresh key is never outdated.
- KeyStore.HeaderAndMessageKeyStore.AddStore: expiration dates are natural numbers; dates before 1970, which the export
  would refuse to narrow, do not occur. The stores are sequences that the methods reassign, so iterator invalidation is
  not modelled.
- PrekeyRuns.RunKeepsInv: clocks that run backwards and the test-only time shifts of the prekey store.
- PrekeyList.ListRoundTrip: a signature is a function of the message that verifies exactly on its own value; lists too
  short for a signed date are refused by the C interface.
- PrekeyStorage.PrekeyStore.GetPrekey: a prekey imported without its public key, which the source derives again.
- Conversation and user stores, master keys, backups, language bindings, printing and the C interface wrappers.
- A claim that prekeys outlive a signed list: the list is valid for three months and a prekey for one.
