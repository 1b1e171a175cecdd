# UTXO ledger chaincode, modelled in Dafny

`utxo.js` is a Hyperledger Fabric chaincode. It keeps physical-goods tokens as
unspent transaction outputs (UTXOs) in Fabric's world state. This project
models its state-transition engine. The world state is a map from composite
keys to records. A key is the segment list of a composite key under the
object type `"utxo"`. Every record is created at the five segments
`[owner, matNr, batchNr, serialNr, txId + ".0"]`, where `txId` is the id of
the creating transaction. A transfer later rewrites a spent input at that
same key (utxo.js:137).

The model has four modules:

- `UtxoTypes` (`utxo_types.dfy`): keys, records, the requests of each
  transaction, and the replies and errors.
- `UtxoTransitions` (`utxo_transitions.dfy`): each transaction as a function
  from the old world state to the new one and the reply. It holds `Mint`,
  `MintBulk` and `Transfer`. `Transfer` is built from its three phases:
  `LoadInputs`, `WriteOutputs` and `MarkSpent`. The module also has the two
  query views and lemmas about what each phase writes.
- `UtxoContract` (`utxo_contract.dfy`): the chaincode as a class `Ledger`
  whose field `state` is the world state. Its methods change it step by step
  with the source's loops. Each is proved equal to the transition in
  `UtxoTransitions`. bulktransfer's three loops are the methods
  `ReadInputs`, `PutOutputs` and `PutSpentInputs`, called in the source's
  order. The two queries are loops over a prefix scan. They are
  proved to list exactly the matching entries, each key once.
- `UtxoProperties` (`utxo_properties.dfy`): properties across transactions.
  Spent records stay spent. Double spends are rejected. A store built by
  these transactions only holds five-segment keys, so mint's duplicate check
  never fires. The module also covers what the queries list, and the quirks
  of the source.

The caller's MSP id (`owner`) and the transaction id (`txId`) are
parameters. Several properties assume the transaction id is fresh
(`FreshTxId`): no stored key ends in `txId + ".0"`.

The source does not always do what its own comments and names suggest. The
model follows the code:

- The comment "check if assets already exists" (utxo.js:33) heads a probe of
  the four-segment key `[owner, matNr, batchNr, serialNr]` (utxo.js:34).
  Records are only ever written at five segments (utxo.js:36). So the probe
  never finds anything, and a second mint of the same lineage succeeds
  (`MintSameLineageTwice`, `MintNeverReportsDuplicate`).
- The comment "for creating multiple assets" (utxo.js:47) heads a loop that
  returns inside its first iteration (utxo.js:66). mintBulk writes at most
  the first entry, and later entries are ignored
  (`MintBulkIgnoresLaterEntries`).
- bulktransfer gives every output the same output id, `txId + ".0"`
  (utxo.js:121-122). So outputs with the same owner, matNr, batchNr and
  serialNr overwrite one another (`SameLineageOutputsCollapse`).
- Phase 1 sets a `txID` field on each input it reads (utxo.js:107). Phase 3
  deletes the helper fields before writing the input back, but deletes the
  misspelled `owtxIDner` where `txID` was meant (utxo.js:136). So every spent
  input keeps its `txID` field (`SpentRecord`, `TransferSpendsInput`).
- The input loop (utxo.js:84-110) never compares an input with earlier
  ones. An input listed twice passes validation twice and is cited twice in
  every output's `inputs` (`RepeatedInputAccepted`).
- The same loop never requires any input. A transfer with an empty input
  list succeeds for any caller and writes every output with `inputs = []`
  (`EmptyInputsAccepted`). Nothing in utxo.js ties outputs to inputs, so a
  transfer can create assets from nothing.

## Model

| member | source | states |
|---|---|---|
| `UtxoTypes.OutputIdInjective` | utxo.js:36 | An output id determines its transaction id. So the records two different transactions create (mint, mintBulk, bulktransfer outputs) never share a key. |
| `UtxoTransitions.Mint` | utxo.js:22-45 | If the four-segment lineage key is stored, mint returns "UTXO asset does already exist!" and changes nothing. Otherwise it returns the transaction id and writes exactly one key, `[owner, matNr, batchNr, serialNr, txId + ".0"]`. That record is unspent, has no inputs and carries the given txEvent and timestampErp. Every other key keeps its record. |
| `UtxoTransitions.AmountAccepted` | utxo.js:53 | mintBulk rejects a marker that is falsy or at most zero, under JavaScript truthiness and number conversion. So it accepts exactly `true` and positive numbers. |
| `UtxoTransitions.MintBulk` | utxo.js:48-69 | An empty list gives no reply and no write. If the first entry's marker is rejected, mintBulk returns "Error in Amount!" and writes nothing. Otherwise it returns the transaction id and writes exactly the first entry's unspent record, at the caller's key with output id `txId + ".0"`. |
| `UtxoTransitions.LoadInputs` | utxo.js:84-110 | Phase 1 succeeds iff every input key exists and is unspent. On success it yields every input in caller order, as key, record read and output id. `NotFound` means the first bad input is missing. `AlreadySpent` means the first bad input exists but is spent. |
| `UtxoTransitions.LoadInputsFailure` | utxo.js:88-102 | Once a prefix of the inputs fails, the whole list fails with the same error. Phase 1 stops at the first bad input. |
| `UtxoTransitions.LoadedInputs` | utxo.js:103-109 | When all inputs are spendable, phase 1 yields `inputKeys` equal to the inputs' keys in caller order. Entries with equal keys are equal. |
| `UtxoTransitions.WriteOutputsUntouched` | utxo.js:112-123 | Phase 2 leaves every key that is not an output key as it was, present or absent. |
| `UtxoTransitions.WriteOutputsWritten` | utxo.js:115-121 | After phase 2, every output key holds an unspent record whose `inputs` is the full list of input keys. |
| `UtxoTransitions.WriteOutputsAt` | utxo.js:115-121 | After phase 2, an output key holds the payload of the last output written there. |
| `UtxoTransitions.MarkSpentUntouched` | utxo.js:125-138 | Phase 3 leaves every key that is not an input key as it was. |
| `UtxoTransitions.MarkSpentAt` | utxo.js:126-137 | After phase 3, every input key holds the record read in phase 1, with `spent = true` and the input's `txID` added. |
| `UtxoTransitions.Transfer` | utxo.js:72-140 | bulktransfer fails iff some input is missing or spent. On failure the store is unchanged and the error is phase 1's. On success it returns one `txId + ".0"` per output, in output order. |
| `UtxoTransitions.TransferSpendsInput` | utxo.js:125-137 | After a successful transfer, each input key holds its old record with `spent = true` and `txID` set to the input's output id. `inputs`, `txEvent` and `timestampErp` are kept. |
| `UtxoTransitions.TransferWritesOutput` | utxo.js:112-122 | With a fresh transaction id, after a successful transfer every output key holds an unspent record citing all input keys in caller order. The last output written at a key gives its txEvent and timestampErp. |
| `UtxoTransitions.TransferFrame` | utxo.js:72-140 | A successful transfer adds exactly the output keys to the store. It leaves every key that is neither an input nor an output unchanged. |
| `UtxoContract.Ledger.Mint` | utxo.js:22-45 | The imperative mint leaves the world state and reply that `UtxoTransitions.Mint` gives. |
| `UtxoContract.Ledger.MintBulk` | utxo.js:48-69 | The imperative mintBulk leaves the world state and reply that `UtxoTransitions.MintBulk` gives. |
| `UtxoContract.Ledger.BulkTransfer` | utxo.js:72-140 | The three-phase imperative bulktransfer leaves the world state and result that `UtxoTransitions.Transfer` gives. |
| `UtxoContract.Ledger.ReadInputs` | utxo.js:84-110 | The first loop returns what `LoadInputs` gives, and writes nothing. |
| `UtxoContract.Ledger.PutOutputs` | utxo.js:112-123 | The second loop leaves the state `WriteOutputs` gives and collects one `txId + ".0"` per output. |
| `UtxoContract.Ledger.PutSpentInputs` | utxo.js:125-138 | The third loop leaves the state `MarkSpent` gives. |
| `UtxoContract.Ledger.ClientUTXOs` | utxo.js:143-160 | The list holds an entry iff its key is stored under `[owner]` and its record is the stored one. Spent or not, each key is listed once. |
| `UtxoContract.Ledger.GetTxID` | utxo.js:163-181 | The list holds an entry iff its key is stored under `[owner, matNr, batchNr]`, is unspent, and has the stored record. Each key is listed once. |
| `UtxoProperties.StepKeepsFullKeys` | utxo.js:36 | mint, mintBulk and bulktransfer only write five-segment keys (utxo.js:65, 121, 137). |
| `UtxoProperties.RunKeepsFullKeys` | utxo.js:36 | Any sequence of transactions keeps every key at five segments. |
| `UtxoProperties.MintProbeNeverHits` | utxo.js:34-43 | On a store of five-segment keys, mint's duplicate check never fires. |
| `UtxoProperties.MintNeverReportsDuplicate` | utxo.js:34-43 | Starting from an empty world state, after any sequence of transactions, mint returns the transaction id. |
| `UtxoProperties.MintSameLineageTwice` | utxo.js:33-36 | Minting one lineage in two transactions with different ids succeeds both times. The two records sit at two different keys, and getTxID then lists both. |
| `UtxoProperties.StepKeepsSpent` | utxo.js:119-127 | With a fresh transaction id, no transaction removes a spent record or makes it unspent. |
| `UtxoProperties.RunKeepsSpent` | utxo.js:119-127 | If every transaction id in a sequence is fresh, every spent record stays stored and spent. |
| `UtxoProperties.StepWritesUnspentOnlyAtOutputId` | utxo.js:36 | After any transaction, each key is spent, unchanged, or a five-segment key ending in that transaction's `txId + ".0"`. |
| `UtxoProperties.TransferChanges` | utxo.js:119-127 | In a successful transfer each key is spent, unchanged, or at the transaction's output id. |
| `UtxoProperties.TransferRejectsSpentInput` | utxo.js:101-102 | If the first bad input is spent, bulktransfer fails with `AlreadySpent` and leaves the store unchanged. |
| `UtxoProperties.TransferRejectsMissingInput` | utxo.js:90-92 | If the first bad input is missing, bulktransfer fails with `NotFound` and leaves the store unchanged. |
| `UtxoProperties.NoDoubleSpend` | utxo.js:101-127 | After a successful transfer consumes an input, any run of later transactions with fresh ids keeps it spent. Every transfer whose input list cites it then fails and leaves the store unchanged. |
| `UtxoProperties.LineageViewWithinClientView` | utxo.js:147-177 | Everything getTxID lists is also listed by clientUTXOs for the same owner, as unspent. |
| `UtxoProperties.MintedIsListed` | utxo.js:36 | After a successful mint, getTxID for its owner, matNr and batchNr lists the new key with its txEvent. |
| `UtxoProperties.TransferOutputIsListed` | utxo.js:121 | With a fresh transaction id, after a successful transfer getTxID lists every output under its new owner, matNr and batchNr. |
| `UtxoProperties.TransferInputIsUnlisted` | utxo.js:127-137 | After a successful transfer getTxID no longer lists any input. clientUTXOs still lists it as spent. |
| `UtxoProperties.SameLineageOutputsCollapse` | utxo.js:121-122 | Two outputs of one lineage share one key. The transfer returns two equal ids and stores only the second output's record. |
| `UtxoProperties.RepeatedInputAccepted` | utxo.js:84-110 | An input listed twice passes validation. It ends up spent, and every output cites its key twice. |
| `UtxoProperties.EmptyInputsAccepted` | utxo.js:84-122 | A transfer with no inputs succeeds for any caller. It returns one `txId + ".0"` per output, and every output key holds an unspent record with `inputs = []`. |
| `UtxoProperties.MintBulkIgnoresLaterEntries` | utxo.js:51-66 | mintBulk's reply and new state depend only on the first entry. |

## Left out

- Fabric plumbing is not modelled: the `Contract` base class, `ClientIdentity`/`getMSPID`, `getTxID`, async/await, and endorsement, MVCC commit and rollback. The owner and the transaction id are parameters. All calls are sequential.
- The byte and JSON encoding of records and requests is not modelled. That covers `JSON.parse`/`JSON.stringify`, `Buffer` and UTF-8. The no-op quote `replace` (utxo.js:73,75) is not modelled either. Records are a datatype, and `txEvent`/`timestampErp` are opaque strings.
- The source's fallback for a stored payload that is not valid JSON is not modelled. Every record in the model is well formed. In the queries (utxo.js:150-155, 170-175) such a payload is listed as a raw string. In bulktransfer (utxo.js:95-100) the raw string reaches utxo.js:103, where setting a property on a string primitive throws in strict mode. So such an input would abort the transfer.
- The composite-key byte format and its U+0000 separator are not modelled. A key is its list of segments, and a partial-key query is a segment-prefix match. This assumes no segment contains U+0000. If one did, and the key builder accepted it, mint's four-segment probe with serialNr `"s\u0000T.0"` would encode to the same string as the stored key `[owner, matNr, batchNr, "s", "T.0"]`. The duplicate check would then fire. So `MintNeverReportsDuplicate` holds for the source only under this assumption. The model also assumes every segment is a non-empty string, as the Fabric key builder is expected to demand. That builder is not part of this model.
- The store's lexicographic key order stays abstract: the query loops take the scanned keys in any order.
- `UtxoTransitions.AmountAccepted`: mintBulk's marker is modelled only as absent, null, a boolean or an integer. JavaScript's conversion of strings, fractional numbers and objects in `spent <= 0` is not modelled.
- `redeemAsset` (utxo.js:184-190) is not modelled. It calls `this.AssetExists`, which the class never defines, and it passes a bare `matNr` to `deleteState` instead of a composite key. It has no well-defined behaviour.
- `InitLedger`, `clientId` and all `console` logging are not modelled. They return a constant or an identity and touch no state. The unreachable `throw`s after `return` (utxo.js:43, 55) are not modelled either.
- The source mutates each phase-1 `inputUTXO` object in place (utxo.js:103-107, 127-136). The model carries those objects as values. Each is local to one transaction and never aliased, so nothing observable is lost.
