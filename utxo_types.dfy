/** The data the UTXO chaincode keeps in the ledger's world state, and the
    requests its transactions receive.

    Every key the chaincode uses lives in the composite-key namespace "utxo";
    a key is modelled by its list of segments, and a partial-key query by a
    segment prefix. The byte encoding of composite keys, the JSON encoding of
    records and the store's lexicographic key order are not modelled. */
module UtxoTypes {

  datatype Option<T> = None | Some(value: T)

  /** The segments of a composite key under the "utxo" object type. */
  type Key = seq<string>

  /** A stored asset record. `inputs` is present only on transfer outputs;
      `txID` is the field a transfer leaves behind on each input it spends. */
  datatype Record = Record(
    spent: bool,
    inputs: Option<seq<Key>>,
    txEvent: string,
    timestampErp: string,
    txID: Option<string>)

  /** The chaincode's part of the world state. */
  type Store = map<Key, Record>

  /** The output identifier every write of a transaction uses: its id plus ".0". */
  function OutputId(txId: string): string
  {
    txId + ".0"
  }

  /** Distinct transactions write under distinct output ids, so no two
      transactions write the same key. */
  lemma OutputIdInjective(a: string, b: string)
    ensures OutputId(a) == OutputId(b) ==> a == b
  {
    if OutputId(a) == OutputId(b) {
      assert |a| == |b|;
      assert a == OutputId(a)[..|a|];
    }
  }

  /** The key mint probes for an existing asset: four segments, no output id. */
  function LineageKey(owner: string, matNr: string, batchNr: string, serialNr: string): Key
  {
    [owner, matNr, batchNr, serialNr]
  }

  /** The five-segment key under which every record is written. */
  function AssetKey(owner: string, matNr: string, batchNr: string, serialNr: string, outputId: string): Key
  {
    [owner, matNr, batchNr, serialNr, outputId]
  }

  /** `k` starts with the segments of `prefix`: what a partial-key query matches. */
  predicate HasPrefix(k: Key, prefix: Key)
  {
    |prefix| <= |k| && k[..|prefix|] == prefix
  }

  /** The `spent` attribute of a mintBulk entry, which mintBulk reads as an
      amount: absent, JSON null, a boolean or an integral number. */
  datatype Marker = Missing | Null | Flag(b: bool) | Number(n: int)

  /** One entry of mintBulk's list. */
  datatype MintEntry = MintEntry(
    matNr: string, batchNr: string, serialNr: string,
    txEvent: string, timestampErp: string, spent: Marker)

  /** One input of bulktransfer: an asset of the caller, with its output id. */
  datatype InputRef = InputRef(matNr: string, batchNr: string, serialNr: string, txID: string)

  /** One output of bulktransfer: the asset to create and its new owner. */
  datatype OutputReq = OutputReq(
    owner: string, matNr: string, batchNr: string, serialNr: string,
    txEvent: string, timestampErp: string)

  /** What mint and mintBulk return: the transaction id, a message string,
      or nothing at all (mintBulk on an empty list returns undefined). */
  datatype Reply = TxId(id: string) | Notice(text: string) | NoReply

  const AlreadyExistsNotice := "UTXO asset does already exist!"
  const AmountNotice := "Error in Amount!"

  /** The two errors bulktransfer throws: NotFound stands for "UTXO input
      does not exist!", AlreadySpent for "UTXO has already been spend!". */
  datatype TransferError = NotFound | AlreadySpent

  datatype Result<T> = Ok(value: T) | Err(error: TransferError)

  /** One element of a query's result: a key with its record. */
  datatype Entry = Entry(key: Key, record: Record)

  /** No two entries of a query result share a key. */
  predicate DistinctKeys(entries: seq<Entry>)
  {
    forall i, j :: 0 <= i < j < |entries| ==> entries[i].key != entries[j].key
  }
}
