/** Properties of the UTXO chaincode's transactions: what a store built by
    them looks like, that spending is one-way, that double spends are
    rejected, what the queries list, and the source's quirks. */
module UtxoProperties {
  import opened UtxoTypes
  import opened UtxoTransitions

  // ----- sequences of transactions -----

  /** One invocation of a state-changing transaction, with the caller's MSP id
      and the id of the transaction it runs in. */
  datatype Call =
    | MintCall(owner: string, txId: string, matNr: string, batchNr: string, serialNr: string,
               txEvent: string, timestampErp: string)
    | MintBulkCall(owner: string, txId: string, entries: seq<MintEntry>)
    | TransferCall(owner: string, txId: string, inputs: seq<InputRef>, outputs: seq<OutputReq>)

  function Step(s: Store, c: Call): Store
  {
    match c
    case MintCall(owner, txId, matNr, batchNr, serialNr, txEvent, timestampErp) =>
      Mint(s, owner, txId, matNr, batchNr, serialNr, txEvent, timestampErp).0
    case MintBulkCall(owner, txId, entries) => MintBulk(s, owner, txId, entries).0
    case TransferCall(owner, txId, inputs, outputs) => Transfer(s, owner, txId, inputs, outputs).0
  }

  function Run(s: Store, calls: seq<Call>): Store
    decreases |calls|
  {
    if |calls| == 0 then s else Run(Step(s, calls[0]), calls[1..])
  }

  /** Every transaction of the run gets a transaction id no earlier write used. */
  ghost predicate FreshRun(s: Store, calls: seq<Call>)
    decreases |calls|
  {
    |calls| == 0 || (FreshTxId(s, calls[0].txId) && FreshRun(Step(s, calls[0]), calls[1..]))
  }

  // ----- the shape of the store -----

  /** Every stored key has the five segments owner, matNr, batchNr, serialNr
      and output id. */
  ghost predicate FullKeys(s: Store)
  {
    forall k :: k in s ==> |k| == 5
  }

  lemma StepKeepsFullKeys(s: Store, c: Call)
    requires FullKeys(s)
    ensures FullKeys(Step(s, c))
  {
    match c
    case MintCall(_, _, _, _, _, _, _) =>
    case MintBulkCall(_, _, _) =>
    case TransferCall(owner, txId, inputs, outputs) =>
      if AllSpendable(s, owner, inputs) {
        forall k | k in Step(s, c) ensures |k| == 5 {
          TransferFrame(s, owner, txId, inputs, outputs, k);
        }
      }
  }

  lemma {:induction false} RunKeepsFullKeys(s: Store, calls: seq<Call>)
    requires FullKeys(s)
    ensures FullKeys(Run(s, calls))
    decreases |calls|
  {
    if |calls| > 0 {
      StepKeepsFullKeys(s, calls[0]);
      RunKeepsFullKeys(Step(s, calls[0]), calls[1..]);
    }
  }

  /** mint's duplicate check reads a four-segment key that no transaction
      writes, so on a store of five-segment keys it never fires. */
  lemma MintProbeNeverHits(s: Store, owner: string, txId: string, matNr: string, batchNr: string,
                           serialNr: string, txEvent: string, timestampErp: string)
    requires FullKeys(s)
    ensures Mint(s, owner, txId, matNr, batchNr, serialNr, txEvent, timestampErp).1 == TxId(txId)
  {
  }

  /** From an empty world state, after any sequence of transactions, mint
      still reports no duplicate. */
  lemma MintNeverReportsDuplicate(calls: seq<Call>, owner: string, txId: string, matNr: string,
                                  batchNr: string, serialNr: string, txEvent: string, timestampErp: string)
    ensures Mint(Run(map[], calls), owner, txId, matNr, batchNr, serialNr, txEvent, timestampErp).1 == TxId(txId)
  {
    RunKeepsFullKeys(map[], calls);
    MintProbeNeverHits(Run(map[], calls), owner, txId, matNr, batchNr, serialNr, txEvent, timestampErp);
  }

  /** Minting the same lineage twice, in two transactions, succeeds twice
      and leaves two unspent records that getTxID lists side by side. */
  lemma MintSameLineageTwice(s: Store, owner: string, tx1: string, tx2: string, matNr: string,
                             batchNr: string, serialNr: string, txEvent: string, timestampErp: string)
    requires FullKeys(s) && tx1 != tx2
    ensures var s1 := Mint(s, owner, tx1, matNr, batchNr, serialNr, txEvent, timestampErp).0;
            var r2 := Mint(s1, owner, tx2, matNr, batchNr, serialNr, txEvent, timestampErp);
            && Mint(s, owner, tx1, matNr, batchNr, serialNr, txEvent, timestampErp).1 == TxId(tx1)
            && r2.1 == TxId(tx2)
            && AssetKey(owner, matNr, batchNr, serialNr, OutputId(tx1))
               != AssetKey(owner, matNr, batchNr, serialNr, OutputId(tx2))
            && AssetKey(owner, matNr, batchNr, serialNr, OutputId(tx1)) in LineageView(r2.0, owner, matNr, batchNr)
            && AssetKey(owner, matNr, batchNr, serialNr, OutputId(tx2)) in LineageView(r2.0, owner, matNr, batchNr)
  {
    OutputIdInjective(tx1, tx2);
  }

  // ----- spending is one-way -----

  /** Every spent record of `s` is still there, and still spent, in `s2`. */
  ghost predicate SpentKept(s: Store, s2: Store)
  {
    forall k :: k in s && s[k].spent ==> k in s2 && s2[k].spent
  }

  lemma StepKeepsSpent(s: Store, c: Call)
    requires FreshTxId(s, c.txId)
    ensures SpentKept(s, Step(s, c))
  {
    match c
    case MintCall(owner, txId, matNr, batchNr, serialNr, txEvent, timestampErp) =>
      var k := AssetKey(owner, matNr, batchNr, serialNr, OutputId(txId));
      assert k[|k| - 1] == OutputId(txId);
    case MintBulkCall(owner, txId, entries) =>
      if entries != [] {
        var k := EntryKey(owner, txId, entries[0]);
        assert k[|k| - 1] == OutputId(txId);
      }
    case TransferCall(owner, txId, inputs, outputs) =>
      if AllSpendable(s, owner, inputs) {
        forall k | k in s && s[k].spent ensures k in Step(s, c) && Step(s, c)[k].spent {
          TransferFrame(s, owner, txId, inputs, outputs, k);
          assert k !in OutputKeySet(txId, outputs) by {
            forall j | 0 <= j < |outputs| ensures OutputKey(txId, outputs[j]) != k {
              var o := OutputKey(txId, outputs[j]);
              assert o[|o| - 1] == OutputId(txId);
            }
          }
          assert k !in InputKeys(owner, inputs) by {
            forall i | 0 <= i < |inputs| ensures InputKeys(owner, inputs)[i] != k {
              assert Spendable(s, InputKey(owner, inputs[i]));
            }
          }
        }
      }
  }

  /** Given fresh transaction ids, no sequence of transactions turns a spent
      record back into an unspent one, or removes it. */
  lemma {:induction false} RunKeepsSpent(s: Store, calls: seq<Call>)
    requires FreshRun(s, calls)
    ensures SpentKept(s, Run(s, calls))
    decreases |calls|
  {
    if |calls| > 0 {
      StepKeepsSpent(s, calls[0]);
      RunKeepsSpent(Step(s, calls[0]), calls[1..]);
    }
  }

  /** Whatever the transaction id, after a transaction every key holds a
      spent record, or the record it held before, or sits at the output id
      txId + ".0" of that transaction: unspent records are written nowhere
      else. */
  lemma StepWritesUnspentOnlyAtOutputId(s: Store, c: Call)
    ensures forall k :: k in Step(s, c) ==>
              || Step(s, c)[k].spent
              || (k in s && Step(s, c)[k] == s[k])
              || (|k| == 5 && k[4] == OutputId(c.txId))
  {
    match c
    case MintCall(_, _, _, _, _, _, _) =>
    case MintBulkCall(_, _, _) =>
    case TransferCall(owner, txId, inputs, outputs) =>
      if AllSpendable(s, owner, inputs) {
        var s2 := Step(s, c);
        forall k | k in s2
          ensures s2[k].spent || (k in s && s2[k] == s[k]) || (|k| == 5 && k[4] == OutputId(txId))
        {
          TransferChanges(s, owner, txId, inputs, outputs, k);
        }
      }
  }

  /** One key of a successful transfer: spent if an input, at the output id
      if an output, untouched otherwise. */
  lemma TransferChanges(s: Store, owner: string, txId: string, ins: seq<InputRef>, outs: seq<OutputReq>, k: Key)
    requires AllSpendable(s, owner, ins) && k in Transfer(s, owner, txId, ins, outs).0
    ensures var s2 := Transfer(s, owner, txId, ins, outs).0;
            s2[k].spent || (k in s && s2[k] == s[k]) || (|k| == 5 && k[4] == OutputId(txId))
  {
    TransferFrame(s, owner, txId, ins, outs, k);
    if k in InputKeys(owner, ins) {
      var i :| 0 <= i < |ins| && InputKeys(owner, ins)[i] == k;
      TransferSpendsInput(s, owner, txId, ins, outs, i);
    } else if k in OutputKeySet(txId, outs) {
      var j :| 0 <= j < |outs| && k == OutputKey(txId, outs[j]);
    }
  }

  // ----- double spends -----

  /** bulktransfer rejects the first input that is already spent, with
      AlreadySpent, and writes nothing. */
  lemma TransferRejectsSpentInput(s: Store, owner: string, txId: string, ins: seq<InputRef>,
                                  outs: seq<OutputReq>, i: int)
    requires 0 <= i < |ins| && AllSpendable(s, owner, ins[..i])
    requires InputKey(owner, ins[i]) in s && s[InputKey(owner, ins[i])].spent
    ensures Transfer(s, owner, txId, ins, outs) == (s, Err(AlreadySpent))
  {
  }

  /** bulktransfer rejects the first input that does not exist, with
      NotFound, and writes nothing. */
  lemma TransferRejectsMissingInput(s: Store, owner: string, txId: string, ins: seq<InputRef>,
                                    outs: seq<OutputReq>, i: int)
    requires 0 <= i < |ins| && AllSpendable(s, owner, ins[..i])
    requires InputKey(owner, ins[i]) !in s
    ensures Transfer(s, owner, txId, ins, outs) == (s, Err(NotFound))
  {
  }

  /** An input consumed by a successful transfer can never be consumed
      again: after any later run of transactions with fresh ids, every
      transfer that cites it fails and changes nothing. */
  lemma NoDoubleSpend(s: Store, owner: string, tx1: string, ins1: seq<InputRef>, outs1: seq<OutputReq>,
                      calls: seq<Call>, tx2: string, ins2: seq<InputRef>, outs2: seq<OutputReq>, a: InputRef)
    requires AllSpendable(s, owner, ins1) && a in ins1 && a in ins2
    requires FreshRun(Transfer(s, owner, tx1, ins1, outs1).0, calls)
    ensures var s2 := Run(Transfer(s, owner, tx1, ins1, outs1).0, calls);
            var r := Transfer(s2, owner, tx2, ins2, outs2);
            r.1.Err? && r.0 == s2
  {
    var i :| 0 <= i < |ins1| && ins1[i] == a;
    TransferSpendsInput(s, owner, tx1, ins1, outs1, i);
    var s1 := Transfer(s, owner, tx1, ins1, outs1).0;
    RunKeepsSpent(s1, calls);
    var s2 := Run(s1, calls);
    var j :| 0 <= j < |ins2| && ins2[j] == a;
    assert !Spendable(s2, InputKey(owner, ins2[j]));
  }

  // ----- queries -----

  /** getTxID lists a subset of what clientUTXOs lists for the same owner. */
  lemma LineageViewWithinClientView(s: Store, owner: string, matNr: string, batchNr: string)
    ensures forall k :: k in LineageView(s, owner, matNr, batchNr) ==>
              k in ClientView(s, owner) && !ClientView(s, owner)[k].spent
  {
  }

  /** A successful mint is listed by getTxID for its owner, matNr and batchNr. */
  lemma MintedIsListed(s: Store, owner: string, txId: string, matNr: string, batchNr: string,
                       serialNr: string, txEvent: string, timestampErp: string)
    requires Mint(s, owner, txId, matNr, batchNr, serialNr, txEvent, timestampErp).1.TxId?
    ensures var s2 := Mint(s, owner, txId, matNr, batchNr, serialNr, txEvent, timestampErp).0;
            var k := AssetKey(owner, matNr, batchNr, serialNr, OutputId(txId));
            k in LineageView(s2, owner, matNr, batchNr) && LineageView(s2, owner, matNr, batchNr)[k].txEvent == txEvent
  {
  }

  /** After a successful transfer with a fresh transaction id, every output
      is listed by getTxID for its new owner, matNr and batchNr. */
  lemma TransferOutputIsListed(s: Store, owner: string, txId: string, ins: seq<InputRef>,
                               outs: seq<OutputReq>, j: int)
    requires AllSpendable(s, owner, ins) && FreshTxId(s, txId) && 0 <= j < |outs|
    ensures var k := OutputKey(txId, outs[j]);
            k in LineageView(Transfer(s, owner, txId, ins, outs).0, outs[j].owner, outs[j].matNr, outs[j].batchNr)
  {
    var k := OutputKey(txId, outs[j]);
    assert k in OutputKeySet(txId, outs);
    TransferWritesOutput(s, owner, txId, ins, outs, k);
    assert k[..3] == [outs[j].owner, outs[j].matNr, outs[j].batchNr];
  }

  /** After a successful transfer no input is listed by getTxID any more,
      while clientUTXOs still lists it, spent. */
  lemma TransferInputIsUnlisted(s: Store, owner: string, txId: string, ins: seq<InputRef>,
                                outs: seq<OutputReq>, i: int, matNr: string, batchNr: string)
    requires AllSpendable(s, owner, ins) && 0 <= i < |ins|
    ensures var s2 := Transfer(s, owner, txId, ins, outs).0;
            var k := InputKey(owner, ins[i]);
            && k !in LineageView(s2, owner, matNr, batchNr)
            && k in ClientView(s2, owner) && ClientView(s2, owner)[k].spent
  {
    TransferSpendsInput(s, owner, txId, ins, outs, i);
    var k := InputKey(owner, ins[i]);
    assert k[..1] == [owner];
  }

  // ----- quirks of bulktransfer -----

  /** Two outputs with the same owner, matNr, batchNr and serialNr get the
      same key, because every output uses txId + ".0": the transfer returns
      two equal ids, and only the second output's record is stored. */
  lemma SameLineageOutputsCollapse(s: Store, owner: string, txId: string, ins: seq<InputRef>,
                                   o1: OutputReq, o2: OutputReq)
    requires AllSpendable(s, owner, ins) && FreshTxId(s, txId)
    requires o1.owner == o2.owner && o1.matNr == o2.matNr && o1.batchNr == o2.batchNr && o1.serialNr == o2.serialNr
    ensures var r := Transfer(s, owner, txId, ins, [o1, o2]);
            && r.1 == Ok([OutputId(txId), OutputId(txId)])
            && OutputKeySet(txId, [o1, o2]) == {OutputKey(txId, o2)}
            && OutputKey(txId, o2) in r.0
            && r.0[OutputKey(txId, o2)] == OutputRecord(o2, InputKeys(owner, ins))
  {
    var outs := [o1, o2];
    var k := OutputKey(txId, o2);
    assert OutputKey(txId, o1) == k;
    assert OutputKeySet(txId, outs) == {k} by {
      assert outs[0] == o1 && outs[1] == o2;
    }
    assert LastAtKey(txId, outs, 1);
    TransferWritesOutput(s, owner, txId, ins, outs, k);
    var ids := Transfer(s, owner, txId, ins, outs).1.value;
    assert ids == [OutputId(txId), OutputId(txId)];
  }

  /** An input listed twice passes validation twice, since nothing is
      written before all inputs are read: the transfer succeeds, the input
      ends up spent, and every output cites its key twice. */
  lemma RepeatedInputAccepted(s: Store, owner: string, txId: string, a: InputRef, outs: seq<OutputReq>)
    requires Spendable(s, InputKey(owner, a)) && FreshTxId(s, txId)
    ensures var r := Transfer(s, owner, txId, [a, a], outs);
            && r.1.Ok?
            && r.0[InputKey(owner, a)].spent
            && forall k :: k in OutputKeySet(txId, outs) ==>
                 k in r.0 && r.0[k].inputs == Some([InputKey(owner, a), InputKey(owner, a)])
  {
    var ins := [a, a];
    assert AllSpendable(s, owner, ins);
    TransferSpendsInput(s, owner, txId, ins, outs, 0);
    assert InputKeys(owner, ins) == [InputKey(owner, a), InputKey(owner, a)];
    forall k | k in OutputKeySet(txId, outs)
      ensures k in Transfer(s, owner, txId, ins, outs).0
      ensures Transfer(s, owner, txId, ins, outs).0[k].inputs == Some([InputKey(owner, a), InputKey(owner, a)])
    {
      TransferWritesOutput(s, owner, txId, ins, outs, k);
    }
  }

  /** A transfer without inputs passes phase 1 trivially: it succeeds for
      any caller and writes every output, unspent and citing no input. */
  lemma EmptyInputsAccepted(s: Store, owner: string, txId: string, outs: seq<OutputReq>)
    ensures var r := Transfer(s, owner, txId, [], outs);
            && r.1 == Ok(OutIds(txId, |outs|))
            && forall k :: k in OutputKeySet(txId, outs) ==>
                 k in r.0 && !r.0[k].spent && r.0[k].inputs == Some([])
  {
    assert AllSpendable(s, owner, []);
    LoadedInputs(s, owner, []);
    forall k | k in OutputKeySet(txId, outs)
      ensures k in Transfer(s, owner, txId, [], outs).0
      ensures !Transfer(s, owner, txId, [], outs).0[k].spent
      ensures Transfer(s, owner, txId, [], outs).0[k].inputs == Some([])
    {
      WriteOutputsWritten(s, txId, outs, [], k);
    }
  }

  // ----- quirk of mintBulk -----

  /** mintBulk returns while handling its first entry, so the entries after
      the first make no difference to its reply or to the world state. */
  lemma MintBulkIgnoresLaterEntries(s: Store, owner: string, txId: string, entries: seq<MintEntry>)
    requires entries != []
    ensures MintBulk(s, owner, txId, entries) == MintBulk(s, owner, txId, entries[..1])
  {
  }
}
