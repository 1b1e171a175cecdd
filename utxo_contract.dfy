/** The UTXO chaincode as an object over the world state: each transaction
    reads and writes `state` step by step, as the chaincode does through
    getState and putState, and is proved to compute the transition that
    UtxoTransitions specifies. */
module UtxoContract {
  import opened UtxoTypes
  import opened UtxoTransitions

  class Ledger {
    /** The "utxo" namespace of the world state. */
    var state: Store

    constructor ()
      ensures state == map[]
    {
      state := map[];
    }

    /** mint: the caller's MSP id is `owner`, the transaction id `txId`. */
    method Mint(owner: string, txId: string, matNr: string, batchNr: string, serialNr: string,
                txEvent: string, timestampErp: string) returns (reply: Reply)
      modifies this
      ensures (state, reply) == UtxoTransitions.Mint(old(state), owner, txId, matNr, batchNr,
                                                     serialNr, txEvent, timestampErp)
    {
      var utxo := Record(false, None, txEvent, timestampErp, None);
      var probe := [owner, matNr, batchNr, serialNr];
      if probe !in state {
        state := state[[owner, matNr, batchNr, serialNr, txId + ".0"] := utxo];
        reply := TxId(txId);
      } else {
        reply := Notice(AlreadyExistsNotice);
      }
    }

    /** mintBulk: the source's loop returns while handling the first entry,
        so that entry is all it looks at. */
    method MintBulk(owner: string, txId: string, inputs: seq<MintEntry>) returns (reply: Reply)
      modifies this
      ensures (state, reply) == UtxoTransitions.MintBulk(old(state), owner, txId, inputs)
    {
      if |inputs| != 0 {
        var input := inputs[0];
        if !Truthy(input.spent) || AtMostZero(input.spent) {
          return Notice(AmountNotice);
        }
        var utxo := Record(false, None, input.txEvent, input.timestampErp, None);
        state := state[[owner, input.matNr, input.batchNr, input.serialNr, txId + ".0"] := utxo];
        return TxId(txId);
      }
      reply := NoReply;
    }

    /** bulktransfer: read and check every input, write every output, then
        write every input back as spent. Each phase is one loop of the source. */
    method BulkTransfer(owner: string, txId: string, inputs: seq<InputRef>, outputs: seq<OutputReq>)
      returns (result: Result<seq<string>>)
      modifies this
      ensures (state, result) == Transfer(old(state), owner, txId, inputs, outputs)
    {
      var loaded := ReadInputs(owner, inputs);
      if loaded.Err? {
        return Err(loaded.error);
      }
      var inputUTXOs := loaded.value;
      var inputKeys := LoadedKeys(inputUTXOs);
      var outIDs := PutOutputs(txId, outputs, inputKeys);
      PutSpentInputs(inputUTXOs);
      return Ok(outIDs);
    }

    /** Phase 1: read every input in order; a missing or spent one throws. */
    method ReadInputs(owner: string, inputs: seq<InputRef>) returns (result: Result<seq<Loaded>>)
      ensures result == LoadInputs(state, owner, inputs)
    {
      var inputUTXOs: seq<Loaded> := [];
      for i := 0 to |inputs|
        invariant LoadInputs(state, owner, inputs[..i]) == Ok(inputUTXOs)
      {
        var input := inputs[i];
        var key := [owner, input.matNr, input.batchNr, input.serialNr, input.txID];
        assert inputs[..i + 1][..i] == inputs[..i];
        if key !in state {
          LoadInputsFailure(state, owner, inputs, i + 1);
          return Err(NotFound);
        }
        var inputUTXO := state[key];
        if inputUTXO.spent {
          LoadInputsFailure(state, owner, inputs, i + 1);
          return Err(AlreadySpent);
        }
        inputUTXOs := inputUTXOs + [Loaded(key, inputUTXO, input.txID)];
      }
      assert inputs[..|inputs|] == inputs;
      return Ok(inputUTXOs);
    }

    /** Phase 2: write every output at its owner's key with output id
        txId + ".0", citing all input keys. */
    method PutOutputs(txId: string, outputs: seq<OutputReq>, inputKeys: seq<Key>) returns (outIDs: seq<string>)
      modifies this
      ensures state == WriteOutputs(old(state), txId, outputs, inputKeys)
      ensures outIDs == OutIds(txId, |outputs|)
    {
      outIDs := [];
      for i := 0 to |outputs|
        invariant state == WriteOutputs(old(state), txId, outputs[..i], inputKeys)
        invariant outIDs == OutIds(txId, i)
      {
        var output := outputs[i];
        var utxo := Record(false, Some(inputKeys), output.txEvent, output.timestampErp, None);
        assert outputs[..i + 1][..i] == outputs[..i];
        state := state[[output.owner, output.matNr, output.batchNr, output.serialNr, txId + ".0"] := utxo];
        outIDs := outIDs + [txId + ".0"];
      }
      assert outputs[..|outputs|] == outputs;
    }

    /** Phase 3: write every input back at its key, spent, keeping its `txID`. */
    method PutSpentInputs(inputUTXOs: seq<Loaded>)
      modifies this
      ensures state == MarkSpent(old(state), inputUTXOs)
    {
      for i := 0 to |inputUTXOs|
        invariant state == MarkSpent(old(state), inputUTXOs[..i])
      {
        var inputUTXO := inputUTXOs[i];
        assert inputUTXOs[..i + 1][..i] == inputUTXOs[..i];
        state := state[inputUTXO.key := inputUTXO.record.(spent := true, txID := Some(inputUTXO.txID))];
      }
      assert inputUTXOs[..|inputUTXOs|] == inputUTXOs;
    }

    /** clientUTXOs: scan every key under [owner] and list it with its record. */
    method ClientUTXOs(owner: string) returns (allResults: seq<Entry>)
      ensures DistinctKeys(allResults)
      ensures forall e :: e in allResults <==> e.key in ClientView(state, owner) && e.record == state[e.key]
    {
      // The partial-key range scan; its order is the store's and stays abstract.
      var pending := set k | k in state.Keys && HasPrefix(k, [owner]);
      ghost var scan := pending;
      allResults := [];
      while pending != {}
        invariant pending <= scan
        invariant DistinctKeys(allResults)
        invariant forall e :: e in allResults <==> e.key in scan - pending && e.record == state[e.key]
        decreases pending
      {
        var key :| key in pending;
        allResults := allResults + [Entry(key, state[key])];
        pending := pending - {key};
      }
    }

    /** getTxID: scan every key under [owner, matNr, batchNr] and list the
        unspent ones with their records. */
    method GetTxID(owner: string, matNr: string, batchNr: string) returns (allResults: seq<Entry>)
      ensures DistinctKeys(allResults)
      ensures forall e :: e in allResults <==>
                e.key in LineageView(state, owner, matNr, batchNr) && e.record == state[e.key]
    {
      var pending := set k | k in state.Keys && HasPrefix(k, [owner, matNr, batchNr]);
      ghost var scan := pending;
      allResults := [];
      while pending != {}
        invariant pending <= scan
        invariant DistinctKeys(allResults)
        invariant forall e :: e in allResults <==>
                    e.key in scan - pending && !state[e.key].spent && e.record == state[e.key]
        decreases pending
      {
        var key :| key in pending;
        var record := state[key];
        if !record.spent {
          allResults := allResults + [Entry(key, record)];
        }
        pending := pending - {key};
      }
    }
  }
}
