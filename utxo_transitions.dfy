/** The chaincode's transactions as functions from the world state before a
    transaction to the state after it and the transaction's reply. The caller's
    MSP id (`owner`) and the transaction id (`txId`) are parameters.

    Within one transaction every read of these operations precedes every
    write, so applying each write to the map at once gives the same result as
    Fabric's write set, where the last write to a key wins. */
module UtxoTransitions {
  import opened UtxoTypes

  /** `s2` is `s` with exactly the key `k` written to `v`. */
  ghost predicate WritesOnly(s: Store, s2: Store, k: Key, v: Record)
  {
    && s2.Keys == s.Keys + {k}
    && s2[k] == v
    && forall k2 :: k2 in s && k2 != k ==> s2[k2] == s[k2]
  }

  /** The record mint and mintBulk write: unspent, without inputs. */
  function MintedRecord(txEvent: string, timestampErp: string): Record
  {
    Record(false, None, txEvent, timestampErp, None)
  }

  // ----- mint -----

  /** mint: probe the four-segment lineage key; if nothing is stored there,
      write an unspent record at the five-segment key ending in txId + ".0"
      and return the transaction id, otherwise return a message and write
      nothing. */
  function Mint(s: Store, owner: string, txId: string, matNr: string, batchNr: string,
                serialNr: string, txEvent: string, timestampErp: string): (r: (Store, Reply))
    ensures LineageKey(owner, matNr, batchNr, serialNr) in s ==>
              r == (s, Notice(AlreadyExistsNotice))
    ensures LineageKey(owner, matNr, batchNr, serialNr) !in s ==>
              && r.1 == TxId(txId)
              && WritesOnly(s, r.0, AssetKey(owner, matNr, batchNr, serialNr, OutputId(txId)),
                            MintedRecord(txEvent, timestampErp))
  {
    if LineageKey(owner, matNr, batchNr, serialNr) in s then
      (s, Notice(AlreadyExistsNotice))
    else
      var k := AssetKey(owner, matNr, batchNr, serialNr, OutputId(txId));
      (s[k := MintedRecord(txEvent, timestampErp)], TxId(txId))
  }

  // ----- mintBulk -----

  /** JavaScript truthiness of the marker. */
  predicate Truthy(m: Marker)
  {
    match m
    case Missing => false
    case Null => false
    case Flag(b) => b
    case Number(n) => n != 0
  }

  /** JavaScript's `m <= 0`: undefined converts to NaN, null and false to 0,
      true to 1. */
  predicate AtMostZero(m: Marker)
  {
    match m
    case Missing => false
    case Null => true
    case Flag(b) => !b
    case Number(n) => n <= 0
  }

  /** mintBulk rejects an entry when `!spent || spent <= 0`. */
  predicate AmountAccepted(m: Marker)
    ensures AmountAccepted(m) <==> m == Flag(true) || (m.Number? && m.n > 0)
  {
    !(!Truthy(m) || AtMostZero(m))
  }

  function EntryKey(owner: string, txId: string, e: MintEntry): Key
  {
    AssetKey(owner, e.matNr, e.batchNr, e.serialNr, OutputId(txId))
  }

  /** mintBulk: the loop over the entries returns during its first iteration,
      so only the first entry is ever checked and written. */
  function MintBulk(s: Store, owner: string, txId: string, entries: seq<MintEntry>): (r: (Store, Reply))
    ensures entries == [] ==> r == (s, NoReply)
    ensures entries != [] && !AmountAccepted(entries[0].spent) ==> r == (s, Notice(AmountNotice))
    ensures entries != [] && AmountAccepted(entries[0].spent) ==>
              && r.1 == TxId(txId)
              && WritesOnly(s, r.0, EntryKey(owner, txId, entries[0]),
                            MintedRecord(entries[0].txEvent, entries[0].timestampErp))
  {
    if |entries| == 0 then (s, NoReply)
    else
      var e := entries[0];
      if !AmountAccepted(e.spent) then (s, Notice(AmountNotice))
      else (s[EntryKey(owner, txId, e) := MintedRecord(e.txEvent, e.timestampErp)], TxId(txId))
  }

  // ----- bulktransfer -----

  /** The key of a transfer input: always under the caller's own owner id. */
  function InputKey(owner: string, i: InputRef): Key
  {
    AssetKey(owner, i.matNr, i.batchNr, i.serialNr, i.txID)
  }

  /** The keys of all inputs, in the caller's order (`inputKeys`). */
  function InputKeys(owner: string, ins: seq<InputRef>): (keys: seq<Key>)
    ensures |keys| == |ins|
    ensures forall i :: 0 <= i < |ins| ==> keys[i] == InputKey(owner, ins[i])
  {
    seq(|ins|, i requires 0 <= i < |ins| => InputKey(owner, ins[i]))
  }

  /** The key of a transfer output: every output of a transaction uses the
      same output id txId + ".0". */
  function OutputKey(txId: string, o: OutputReq): Key
  {
    AssetKey(o.owner, o.matNr, o.batchNr, o.serialNr, OutputId(txId))
  }

  function OutputKeySet(txId: string, outs: seq<OutputReq>): set<Key>
  {
    set j | 0 <= j < |outs| :: OutputKey(txId, outs[j])
  }

  /** The record written for an output: unspent, citing every input key. */
  function OutputRecord(o: OutputReq, inputKeys: seq<Key>): Record
  {
    Record(false, Some(inputKeys), o.txEvent, o.timestampErp, None)
  }

  /** No later output of `outs` is written at the same key as output `j`. */
  ghost predicate LastAtKey(txId: string, outs: seq<OutputReq>, j: int)
    requires 0 <= j < |outs|
  {
    forall j2 :: j < j2 < |outs| ==> OutputKey(txId, outs[j2]) != OutputKey(txId, outs[j])
  }

  /** An input read in phase 1: its key, the record read there, and its
      output id, which phase 3 stores in the record's `txID` field. */
  datatype Loaded = Loaded(key: Key, record: Record, txID: string)

  /** No stored key ends in the transaction's output id: the transaction id
      was never used by a write before. */
  ghost predicate FreshTxId(s: Store, txId: string)
  {
    forall k :: k in s && |k| > 0 ==> k[|k| - 1] != OutputId(txId)
  }

  /** The key exists and its record is not spent. */
  predicate Spendable(s: Store, k: Key)
  {
    k in s && !s[k].spent
  }

  ghost predicate AllSpendable(s: Store, owner: string, ins: seq<InputRef>)
  {
    forall i :: 0 <= i < |ins| ==> Spendable(s, InputKey(owner, ins[i]))
  }

  /** Phase 1 of bulktransfer: read every input in order; the first input
      that is missing or spent ends the transaction with that error. */
  function LoadInputs(s: Store, owner: string, ins: seq<InputRef>): (r: Result<seq<Loaded>>)
    ensures r.Ok? <==> AllSpendable(s, owner, ins)
    ensures r.Ok? ==> |r.value| == |ins|
    ensures r.Ok? ==> forall i :: 0 <= i < |ins| ==>
              r.value[i] == Loaded(InputKey(owner, ins[i]), s[InputKey(owner, ins[i])], ins[i].txID)
    ensures r == Err(NotFound) ==>
              exists i :: 0 <= i < |ins| && InputKey(owner, ins[i]) !in s && AllSpendable(s, owner, ins[..i])
    ensures r == Err(AlreadySpent) ==>
              exists i :: (0 <= i < |ins| && InputKey(owner, ins[i]) in s && s[InputKey(owner, ins[i])].spent
                           && AllSpendable(s, owner, ins[..i]))
    decreases |ins|
  {
    if |ins| == 0 then Ok([])
    else
      var n := |ins| - 1;
      assert ins[..n][..n] == ins[..n];
      match LoadInputs(s, owner, ins[..n])
      case Err(e) =>
        assert forall i :: 0 <= i < n ==> ins[..n][i] == ins[i] && ins[..n][..i] == ins[..i];
        Err(e)
      case Ok(loaded) =>
        var k := InputKey(owner, ins[n]);
        if k !in s then Err(NotFound)
        else if s[k].spent then Err(AlreadySpent)
        else Ok(loaded + [Loaded(k, s[k], ins[n].txID)])
  }

  /** Once a prefix of the inputs fails, the whole list fails the same way:
      phase 1 stops at the first bad input. */
  lemma {:induction false} LoadInputsFailure(s: Store, owner: string, ins: seq<InputRef>, m: int)
    requires 0 <= m <= |ins| && LoadInputs(s, owner, ins[..m]).Err?
    ensures LoadInputs(s, owner, ins) == LoadInputs(s, owner, ins[..m])
    decreases |ins| - m
  {
    if m < |ins| {
      assert ins[..m + 1][..m] == ins[..m];
      LoadInputsFailure(s, owner, ins, m + 1);
    } else {
      assert ins[..m] == ins;
    }
  }

  /** Phase 2 of bulktransfer: write every output, in order. */
  function WriteOutputs(s: Store, txId: string, outs: seq<OutputReq>, inputKeys: seq<Key>): Store
    decreases |outs|
  {
    if |outs| == 0 then s
    else
      var n := |outs| - 1;
      WriteOutputs(s, txId, outs[..n], inputKeys)[OutputKey(txId, outs[n]) := OutputRecord(outs[n], inputKeys)]
  }

  /** A key no output is written at keeps its record, or its absence. */
  lemma {:induction false} WriteOutputsUntouched(s: Store, txId: string, outs: seq<OutputReq>, inputKeys: seq<Key>, k: Key)
    requires k !in OutputKeySet(txId, outs)
    ensures k in WriteOutputs(s, txId, outs, inputKeys) <==> k in s
    ensures k in s ==> WriteOutputs(s, txId, outs, inputKeys)[k] == s[k]
    decreases |outs|
  {
    if |outs| > 0 {
      var n := |outs| - 1;
      assert k != OutputKey(txId, outs[n]);
      assert k !in OutputKeySet(txId, outs[..n]) by {
        assert forall j :: 0 <= j < n ==> outs[..n][j] == outs[j];
      }
      WriteOutputsUntouched(s, txId, outs[..n], inputKeys, k);
    }
  }

  /** Every output key ends up holding an unspent record that cites all inputs. */
  lemma {:induction false} WriteOutputsWritten(s: Store, txId: string, outs: seq<OutputReq>, inputKeys: seq<Key>, k: Key)
    requires k in OutputKeySet(txId, outs)
    ensures k in WriteOutputs(s, txId, outs, inputKeys)
    ensures !WriteOutputs(s, txId, outs, inputKeys)[k].spent
    ensures WriteOutputs(s, txId, outs, inputKeys)[k].inputs == Some(inputKeys)
    decreases |outs|
  {
    var n := |outs| - 1;
    if k != OutputKey(txId, outs[n]) {
      var j :| 0 <= j < |outs| && k == OutputKey(txId, outs[j]);
      assert outs[..n][j] == outs[j];
      WriteOutputsWritten(s, txId, outs[..n], inputKeys, k);
    }
  }

  /** The output written last at a key decides that key's payload. */
  lemma {:induction false} WriteOutputsAt(s: Store, txId: string, outs: seq<OutputReq>, inputKeys: seq<Key>, j: int)
    requires 0 <= j < |outs| && LastAtKey(txId, outs, j)
    ensures OutputKey(txId, outs[j]) in WriteOutputs(s, txId, outs, inputKeys)
    ensures WriteOutputs(s, txId, outs, inputKeys)[OutputKey(txId, outs[j])] == OutputRecord(outs[j], inputKeys)
    decreases |outs|
  {
    var n := |outs| - 1;
    if j < n {
      assert outs[..n][j] == outs[j];
      assert LastAtKey(txId, outs[..n], j) by {
        forall j2 | j < j2 < n ensures OutputKey(txId, outs[..n][j2]) != OutputKey(txId, outs[..n][j]) {
          assert outs[..n][j2] == outs[j2];
        }
      }
      WriteOutputsAt(s, txId, outs[..n], inputKeys, j);
    }
  }

  /** The record phase 3 writes back for an input: the record as read, with
      `spent` set and the `txID` field added. The owner and lineage fields
      phase 1 added are deleted again; `txID` stays, because the source
      deletes a misspelled field name instead of it. */
  function SpentRecord(l: Loaded): Record
  {
    l.record.(spent := true, txID := Some(l.txID))
  }

  /** Entries with the same key are the same entry (true of what phase 1
      reads: the key determines both the record and the output id). */
  ghost predicate Coherent(loaded: seq<Loaded>)
  {
    forall i, j :: 0 <= i < |loaded| && 0 <= j < |loaded| && loaded[i].key == loaded[j].key ==>
      loaded[i] == loaded[j]
  }

  function LoadedKeys(loaded: seq<Loaded>): (keys: seq<Key>)
    ensures |keys| == |loaded|
    ensures forall i :: 0 <= i < |loaded| ==> keys[i] == loaded[i].key
  {
    seq(|loaded|, i requires 0 <= i < |loaded| => loaded[i].key)
  }

  /** Phase 3 of bulktransfer: rewrite every input as spent, in order. */
  function MarkSpent(s: Store, loaded: seq<Loaded>): Store
    decreases |loaded|
  {
    if |loaded| == 0 then s
    else
      var n := |loaded| - 1;
      MarkSpent(s, loaded[..n])[loaded[n].key := SpentRecord(loaded[n])]
  }

  /** A key that is not an input keeps its record, or its absence. */
  lemma {:induction false} MarkSpentUntouched(s: Store, loaded: seq<Loaded>, k: Key)
    requires k !in LoadedKeys(loaded)
    ensures k in MarkSpent(s, loaded) <==> k in s
    ensures k in s ==> MarkSpent(s, loaded)[k] == s[k]
    decreases |loaded|
  {
    if |loaded| > 0 {
      var n := |loaded| - 1;
      assert k != LoadedKeys(loaded)[n];
      assert k !in LoadedKeys(loaded[..n]) by {
        assert forall i :: 0 <= i < n ==> LoadedKeys(loaded[..n])[i] == LoadedKeys(loaded)[i];
      }
      MarkSpentUntouched(s, loaded[..n], k);
    }
  }

  /** Every input key ends up holding its record marked spent. */
  lemma {:induction false} MarkSpentAt(s: Store, loaded: seq<Loaded>, i: int)
    requires Coherent(loaded) && 0 <= i < |loaded|
    ensures loaded[i].key in MarkSpent(s, loaded)
    ensures MarkSpent(s, loaded)[loaded[i].key] == SpentRecord(loaded[i])
    decreases |loaded|
  {
    var n := |loaded| - 1;
    if loaded[i].key != loaded[n].key {
      assert loaded[..n][i] == loaded[i];
      assert Coherent(loaded[..n]) by {
        forall a, b | 0 <= a < n && 0 <= b < n && loaded[..n][a].key == loaded[..n][b].key
          ensures loaded[..n][a] == loaded[..n][b]
        {
          assert loaded[..n][a] == loaded[a] && loaded[..n][b] == loaded[b];
        }
      }
      MarkSpentAt(s, loaded[..n], i);
    }
  }

  /** The output ids bulktransfer returns: one txId + ".0" per output. */
  function OutIds(txId: string, count: nat): seq<string>
  {
    seq(count, _ => OutputId(txId))
  }

  /** bulktransfer: validate every input, then write every output, then
      rewrite every input as spent; the reply lists one output id per
      output. On an error nothing has been written. */
  function Transfer(s: Store, owner: string, txId: string, ins: seq<InputRef>, outs: seq<OutputReq>)
    : (r: (Store, Result<seq<string>>))
    ensures r.1.Err? <==> !AllSpendable(s, owner, ins)
    ensures r.1.Err? ==> r.0 == s && r.1.error == LoadInputs(s, owner, ins).error
    ensures r.1.Ok? ==> |r.1.value| == |outs| && forall j :: 0 <= j < |outs| ==> r.1.value[j] == OutputId(txId)
  {
    match LoadInputs(s, owner, ins)
    case Err(e) => (s, Err(e))
    case Ok(loaded) =>
      var written := WriteOutputs(s, txId, outs, LoadedKeys(loaded));
      (MarkSpent(written, loaded), Ok(OutIds(txId, |outs|)))
  }

  /** On success phase 1 read exactly the inputs, in order, and nothing clashes. */
  lemma LoadedInputs(s: Store, owner: string, ins: seq<InputRef>)
    requires AllSpendable(s, owner, ins)
    ensures LoadInputs(s, owner, ins).Ok?
    ensures LoadedKeys(LoadInputs(s, owner, ins).value) == InputKeys(owner, ins)
    ensures Coherent(LoadInputs(s, owner, ins).value)
  {
  }

  /** A successful transfer leaves every input spent at its own key, keeping
      its inputs, txEvent and timestampErp and recording its output id. */
  lemma TransferSpendsInput(s: Store, owner: string, txId: string, ins: seq<InputRef>, outs: seq<OutputReq>, i: int)
    requires AllSpendable(s, owner, ins) && 0 <= i < |ins|
    ensures var k := InputKey(owner, ins[i]);
      k in Transfer(s, owner, txId, ins, outs).0 &&
      Transfer(s, owner, txId, ins, outs).0[k] == s[k].(spent := true, txID := Some(ins[i].txID))
  {
    LoadedInputs(s, owner, ins);
    var loaded := LoadInputs(s, owner, ins).value;
    MarkSpentAt(WriteOutputs(s, txId, outs, LoadedKeys(loaded)), loaded, i);
  }

  /** With a fresh transaction id, every output key of a successful transfer
      holds an unspent record citing all input keys in the caller's order,
      and the last output written at a key decides its payload. */
  lemma TransferWritesOutput(s: Store, owner: string, txId: string, ins: seq<InputRef>, outs: seq<OutputReq>, k: Key)
    requires AllSpendable(s, owner, ins) && FreshTxId(s, txId)
    requires k in OutputKeySet(txId, outs)
    ensures k in Transfer(s, owner, txId, ins, outs).0
    ensures !Transfer(s, owner, txId, ins, outs).0[k].spent
    ensures Transfer(s, owner, txId, ins, outs).0[k].inputs == Some(InputKeys(owner, ins))
    ensures forall j :: 0 <= j < |outs| && OutputKey(txId, outs[j]) == k && LastAtKey(txId, outs, j) ==>
              Transfer(s, owner, txId, ins, outs).0[k] == OutputRecord(outs[j], InputKeys(owner, ins))
  {
    LoadedInputs(s, owner, ins);
    var loaded := LoadInputs(s, owner, ins).value;
    var keys := LoadedKeys(loaded);
    WriteOutputsWritten(s, txId, outs, keys, k);
    var j :| 0 <= j < |outs| && k == OutputKey(txId, outs[j]);
    assert k[|k| - 1] == OutputId(txId);
    assert k !in keys by {
      forall i | 0 <= i < |keys| ensures keys[i] != k {
        assert Spendable(s, InputKey(owner, ins[i]));
      }
    }
    MarkSpentUntouched(WriteOutputs(s, txId, outs, keys), loaded, k);
    forall j | 0 <= j < |outs| && OutputKey(txId, outs[j]) == k && LastAtKey(txId, outs, j)
      ensures Transfer(s, owner, txId, ins, outs).0[k] == OutputRecord(outs[j], InputKeys(owner, ins))
    {
      WriteOutputsAt(s, txId, outs, keys, j);
    }
  }

  /** A successful transfer adds the output keys and touches no key that is
      neither an input nor an output. */
  lemma TransferFrame(s: Store, owner: string, txId: string, ins: seq<InputRef>, outs: seq<OutputReq>, k: Key)
    requires AllSpendable(s, owner, ins)
    ensures k in Transfer(s, owner, txId, ins, outs).0 <==> k in s || k in OutputKeySet(txId, outs)
    ensures k in s && k !in OutputKeySet(txId, outs) && k !in InputKeys(owner, ins) ==>
              Transfer(s, owner, txId, ins, outs).0[k] == s[k]
  {
    LoadedInputs(s, owner, ins);
    var loaded := LoadInputs(s, owner, ins).value;
    var keys := LoadedKeys(loaded);
    var written := WriteOutputs(s, txId, outs, keys);
    if k in OutputKeySet(txId, outs) {
      WriteOutputsWritten(s, txId, outs, keys, k);
    } else {
      WriteOutputsUntouched(s, txId, outs, keys, k);
    }
    if k in keys {
      var i :| 0 <= i < |keys| && keys[i] == k;
      MarkSpentAt(written, loaded, i);
    } else {
      MarkSpentUntouched(written, loaded, k);
    }
  }

  // ----- queries -----

  /** What clientUTXOs lists: every record under the owner, spent or not. */
  function ClientView(s: Store, owner: string): Store
  {
    map k | k in s.Keys && HasPrefix(k, [owner]) :: s[k]
  }

  /** What getTxID lists: the unspent records under owner, matNr, batchNr. */
  function LineageView(s: Store, owner: string, matNr: string, batchNr: string): Store
  {
    map k | k in s.Keys && HasPrefix(k, [owner, matNr, batchNr]) && !s[k].spent :: s[k]
  }
}
