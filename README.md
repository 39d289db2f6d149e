# Collaborative batch transactions: the PSBT relay handler

This project models, in Dafny, how one Lightning node handles a received batch
message (`PSBTReceived`) in a protocol where several nodes build one Bitcoin
transaction together. The message carries a partially signed transaction
(a BIP 174 PSBT) from hop to hop, together with:

- the list of participants;
- a stack of hops recording the path;
- a flag saying whether the batch is still collecting participants or is
  already collecting signatures.

On each message the node does the following:

- **Join.** If it is collecting and not yet listed, it lists itself and lets
  its wallet add inputs and outputs.
- **Quota.** Once the eight-bit participant count reaches `max_participants`,
  it switches to signing. At the switch it shuffles the inputs and the outputs
  as aligned pairs.
- **Collecting phase.** It picks a next hop among its channel peers, pushes
  itself on the path stack and forwards the message.
- **Signing phase.** It signs if it is listed and removes itself from the list.
  Then it pops the path stack and sends the message to the popped node. If it
  has no channel to that node, it delegates to a listed participant it has a
  channel with. When the stack is empty, it stores the finished PSBT.

The model is organised in these files:

- `types.dfy` (`BatchTypes`): the data model. It holds the message, the PSBT
  (metadata sequences beside the unsigned transaction's raw sequences), the
  outcome of one event (`Forward`, `Stored`, `NothingSent`, `Failed`) and the
  collaborators. Every `unwrap` of the source is a `HandlerError`.
- `shuffle.dfy` (`Shuffle`): zip and unzip as functions. The vector shuffle is
  an in-place Fisher-Yates method on an array, driven by a stream of random
  draws.
- `routing.dfy` (`Routing`): the two scans for the next hop, the reverse scan
  for a delegate, and the participant-list edits. The scans are methods with
  the source's `continue`/`break` loops, proved against recursive
  specification functions.
- `batch.dfy` (`Batch`): the handler. `Received` gives the effect of one event
  as a function of the event and the node's collaborators, through `Join`,
  `Quota`, `Collect` for the collecting phase and `SignAndRoute` for the
  signing phase. `HandleReceived` is the step-by-step handler with the
  source's rebinding of `psbt`, `participants`, `hops` and `sign`; its two
  branches are the methods `ForwardCollecting` and `SignAndSend`. Each method
  is proved equal to its function.
- `properties.dfy` (`BatchProperties`): properties across the steps. They
  cover the alignment of the shuffle, the push/pop balance of the path stack,
  the phase flag, storing, and the removal of the signer.
- `scenario.dfy` (`Scenario`): a three-node batch with a quota of three, traced
  through `Received`.

The collaborators are parameters of type `NodeContext`:

- **Wallet.** Adding UTXOs, signing and storing the finished PSBT are function
  values. The first two return an `Option`, the last a `bool`; any of them may
  fail.
- **Codec.** Hex and PSBT decoding is a function returning an `Option`.
  Encoding is a function.
- **Channel manager.** `list_channels` is the sequence of counterparties, in
  list order. "Some channel with this peer exists" is a predicate.
- **Random number generator.** It is a function from draw number to raw value.
  Any such stream yields a permutation; the distribution is not modelled.

Some behaviours of the code are easy to miss. The model follows the code in
each of them:

- The quota test at src/batch.rs:95 does not look at the incoming phase flag.
  A signing-phase message whose count still meets the quota is therefore
  shuffled again (src/batch.rs:96-128). `SigningPhaseReshuffles` shows this.
- Whether more signatures are needed is decided by the path stack alone
  (src/batch.rs:185-186). A node with an empty stack stores the PSBT
  (src/batch.rs:223-229) even while other participants are still listed.
  `StoresDespiteListedSigners` and `Scenario.StoredWhileASigns` show this.
- The count is cast to eight bits before the quota test (src/batch.rs:95).
  `QuotaTestWraps` shows this.
- The collecting scan reads the top of the path stack (src/batch.rs:141) as
  soon as it meets a peer that is not a participant. A message with an empty
  path stack then fails instead of being forwarded
  (`Scenario.OpeningWithEmptyPathFails`). With the originator on the stack,
  the three-node batch completes (`Scenario.SecondHopForwardsToC` to
  `Scenario.FinishedAtA`).
- The result of each send is discarded (src/batch.rs:165, 191, 209), so a
  send is an outcome and never an error.

## Model

| member | source | states |
|---|---|---|
| `Batch.HandleReceived` | src/batch.rs:53-232 | the step-by-step handler (decode, join, quota and shuffle, then the collecting or the signing branch) has exactly the effect `Received` gives, for every message and every behaviour of wallet, codec, channels and generator |
| `Batch.Received` | src/batch.rs:53-232 | decoding fails exactly when the codec rejects the hex; funding fails exactly when a decoded message makes the receiver join and the wallet cannot fund it; the collecting errors and collecting forwards happen only to messages received in the collecting phase; nothing is sent only when the received path stack was non-empty |
| `Batch.ForwardCollecting` | src/batch.rs:135-174 | the collecting branch (both scans, the push, the encoding and the unwrap of the chosen peer) has exactly the effect `Collect` gives |
| `Batch.SignAndSend` | src/batch.rs:175-231 | the signing branch (sign and leave the list, encode, pop and send, delegate or store) has exactly the effect `SignAndRoute` gives |
| `Batch.Join` | src/batch.rs:83-92 | when collecting and unlisted, the receiver is appended after the unchanged earlier entries and the wallet is asked to add two outputs with the fixed amount and the fee; the step fails with `FundingFailed` exactly when that call fails, and otherwise carries the PSBT the wallet returned; in every other case participants, hops, PSBT and flag are untouched |
| `Batch.UniformAmount` | src/batch.rs:88-89 | the wallet is asked for a fixed-amount output exactly when the uniform amount is non-zero, and then for that amount |
| `Batch.ParticipantCount` | src/batch.rs:95 | the eight-bit cast of the count equals the count below 256 |
| `Batch.Quota` | src/batch.rs:94-131 | afterwards the flag is true iff it was true or the quota test holds; the PSBT is shuffled exactly when the test holds, whatever the incoming flag; participants and hops are unchanged |
| `BatchProperties.QuotaTestWraps` | src/batch.rs:95 | below 256 participants the test compares the true count; a list of 256 up to 255 + quota entries fails a quota it exceeds |
| `BatchProperties.SigningPhaseReshuffles` | src/batch.rs:94-97 | a message already in the signing phase whose count meets the quota has its PSBT shuffled again |
| `Batch.ShufflePsbt` | src/batch.rs:100-128 | zipping into fresh vectors, shuffling them in place and unzipping yields the PSBT `ShuffledPsbt` describes |
| `Batch.ShuffledPsbt` | src/batch.rs:100-128 | the inputs and raw inputs come out with the same length, the shorter of the two original lengths, and likewise the outputs and raw outputs; globals, version and lock time are unchanged |
| `Shuffle.ShuffleInPlace` | src/batch.rs:107 | the in-place shuffle leaves the array equal to the Fisher-Yates shuffle of its old contents under the given draws |
| `Shuffle.Shuffled` | src/batch.rs:107 | a shuffle keeps the length and the multiset of elements, for every stream of draws |
| `Shuffle.ShuffledProjects` | src/batch.rs:101-113 | unzipping shuffled pairs gives the same shuffle (same draws) of each component, so index i of both sides comes from one original pair |
| `Shuffle.Zip` | src/batch.rs:101-106 | zipping stops at the shorter side, and pair i holds element i of each side |
| `Shuffle.Unzip` | src/batch.rs:110-111 | unzipping gives two sequences as long as the pairs, holding the first and the second components in order |
| `Shuffle.ZipUnzip` | src/batch.rs:101-111 | unzipping then zipping returns the pairs unchanged |
| `Shuffle.UnzipZip` | src/batch.rs:101-111 | zipping then unzipping returns both sides cut to the shorter length |
| `BatchProperties.ShuffledPairsAligned` | src/batch.rs:101-113 | after zip, shuffle and unzip both sides have the shorter side's length, the multiset of pairs is kept, and each side is the same shuffle of its prefix |
| `BatchProperties.ShuffledPairsKeepSides` | src/batch.rs:101-113 | with sides of equal length, each side keeps its multiset of elements |
| `BatchProperties.ShuffledPsbtAligned` | src/batch.rs:100-128 | after the PSBT shuffle, the input pairs and the output pairs are each aligned and kept as multisets; the outputs use the draws after those of the inputs; globals, version and lock time are unchanged |
| `BatchProperties.ShuffledPsbtIsPermutation` | src/batch.rs:100-128 | on an aligned PSBT the shuffle keeps the multisets of inputs, raw inputs, outputs and raw outputs |
| `Routing.PrimaryHop` | src/batch.rs:136-146 | the first scan fails iff the path stack is empty and some counterparty is not a participant; it finds nothing iff every counterparty is a participant or the top of the stack; a pick is a counterparty that is neither a participant nor the top of the (non-empty) stack |
| `Routing.PrimaryHopIsFirstEligible` | src/batch.rs:137-145 | every counterparty listed before the first scan's pick is a participant or the top of the stack, so the pick is the first eligible one |
| `Routing.FirstOther` | src/batch.rs:153-159 | the fallback loop finds nothing iff every counterparty is the sender, and otherwise picks a counterparty different from the sender |
| `Routing.FirstOtherIsFirst` | src/batch.rs:153-159 | the fallback loop's pick is the earliest counterparty different from the sender |
| `Routing.FallbackHop` | src/batch.rs:149-160 | the fallback picks the first counterparty that is not the sender; it picks the sender only when it is the sole channel; it finds no peer iff there are no channels, or more than one and all are the sender |
| `Routing.NextHop` | src/batch.rs:136-160 | the choice fails iff the stack is empty and some counterparty is not a participant; it finds no peer iff every counterparty is skipped and there are no channels or several all to the sender; a pick is a counterparty, and either eligible for the first scan or, when all are skipped, different from the sender unless the sender is the sole channel |
| `Routing.SelectNextHop` | src/batch.rs:136-160 | the two loops, with their `continue`/`break`, compute the first scan's pick or else the fallback's, and fail exactly where the first scan reads an empty stack |
| `Batch.Collect` | src/batch.rs:135-174 | a collecting forward goes to the peer `NextHop` picks, a channel counterparty, with the receiver pushed on the old hops, the flag false, the joined participants, the encoded PSBT and amount, fee and quota unchanged; it fails with no last hop, or with no next peer, exactly in the cases those scans describe, and has no other outcome |
| `Routing.Without` | src/batch.rs:180 | the receiver is removed from the list, every other node keeps its multiplicity, and a list without it is unchanged |
| `Routing.WithoutConcat` | src/batch.rs:180 | removal distributes over concatenation, so the remaining nodes keep their relative order |
| `Routing.WithMember` | src/batch.rs:206-208 | the popped node is in the list afterwards, appended after the unchanged list when absent |
| `Routing.LastWithChannel` | src/batch.rs:203-204 | the reverse scan finds nothing iff no participant has a channel, and otherwise the last participant with a channel |
| `Routing.FindDelegate` | src/batch.rs:202-221 | the reverse loop with its `break` returns what `LastWithChannel` specifies |
| `Batch.SignOwn` | src/batch.rs:177-181 | a listed receiver has the wallet sign, carries the signed PSBT on, and fails with `SigningFailed` exactly when signing fails; afterwards every occurrence of the receiver is removed; an unlisted receiver leaves everything unchanged |
| `Batch.RouteSigned` | src/batch.rs:183-230 | every forward pops one hop, keeps the flag true and amount, fee and quota unchanged, and carries the encoded PSBT; with a channel to the popped node it goes there with the list unchanged; otherwise it goes to the last participant with a channel, with the popped node added to the list when absent; nothing is sent iff no participant has a channel; with an empty stack the PSBT is stored, or the handler fails when storing fails |
| `Batch.SignAndRoute` | src/batch.rs:175-231 | the signing phase fails with `SigningFailed` exactly when a listed receiver cannot sign, and otherwise only with `StorageFailed` on an empty stack; a forward pops one hop, a store needs an empty stack, and what a listed receiver sends or stores is the PSBT its wallet signed |
| `BatchProperties.HopsBalance` | src/batch.rs:162-174 | every collecting forward pushes exactly the receiver; every signing forward pops exactly one hop; a signing-phase message is never sent on as collecting |
| `BatchProperties.StoredOnlyWithEmptyPath` | src/batch.rs:186-229 | the PSBT is stored only by a signing-phase node whose received path stack is empty |
| `BatchProperties.StoresDespiteListedSigners` | src/batch.rs:186-229 | with an empty stack in the signing phase, an unlisted receiver stores the PSBT, whoever is still listed |
| `BatchProperties.SignerRemoved` | src/batch.rs:177-208 | a signing-phase forward never lists the receiver, unless the receiver was the popped node, has no channel to itself, and the message was delegated to another node that lists it again |
| `Scenario.OpeningWithEmptyPathFails` | src/batch.rs:137-143 | a collecting message with an empty path stack, at a node with a non-participant peer, fails at the read of the last hop |
| `Scenario.SecondHopForwardsToC` | src/batch.rs:83-174 | B joins as second of three and forwards to C with itself pushed |
| `Scenario.QuotaReachedAtC` | src/batch.rs:83-200 | C joins as third, meets the quota, signs, leaves the list and sends back to B in the signing phase |
| `Scenario.BackAtB` | src/batch.rs:175-200 | B signs, leaves the list, pops A and sends to A |
| `Scenario.FinishedAtA` | src/batch.rs:175-230 | A signs with an empty stack and stores the PSBT |
| `Scenario.StoredWhileASigns` | src/batch.rs:175-230 | B stores the PSBT when its stack is empty, although A is still listed |

## Left out

- The `PSBTSent` arm (src/batch.rs:30-52), the alias (src/batch.rs:25-28) and every `println!`: they only log.
- Hex decoding, PSBT deserialization and `serialize_hex`: the BIP 174 codec belongs to an external library. It is a `Codec` parameter, and decoding may fail.
- Wallet internals (`add_utxos_to_psbt`, `payjoin_sign_psbt`, `push_to_batch_psbts`): UTXO selection, signatures and storage are opaque functions that succeed or fail. The model does not say which inputs and outputs the wallet adds, so alignment before the shuffle is not assumed.
- `send_psbt`: network I/O whose result the source discards. A send is the `Forward` outcome; delivery and its failure are not modelled.
- `list_channels` and `list_channels_with_counterparty` are independent inputs. The model does not tie the predicate to the list, since the two calls may see different channel states.
- `thread_rng`: the generator is a stream of draws and its distribution is not modelled. `ShuffleInPlace` follows the Fisher-Yates scheme of the `rand` crate's slice shuffle, reducing each draw into range with `%`. The crate itself is not part of this model.
- `Amount` satoshi semantics and script or signature contents: amounts are passed through unchanged, and scripts are opaque bytes.
- Events other than the two batch events: the handler ignores them.
