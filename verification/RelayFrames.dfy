/** What the steps leave alone. */
module RelayFrames {
  import opened Types
  import opened RelaySpec

  lemma {:induction false} InsertAllFrame<O>(s: State<O>, nid: string, es: seq<Entry>, os: seq<O>)
    requires nid in s.chains && |es| == |os|
    ensures var t := InsertAll(s, nid, es, os);
      t.finality == s.finality && t.messages == s.messages && t.flights == s.flights && t.pending == s.pending &&
      t.scan == s.scan && t.h == s.h && t.chains.Keys == s.chains.Keys
    decreases |es|
  {
    if es != [] {
      var t := Insert(s, nid, es[0], os[0]);
      assert t.chains.Keys == s.chains.Keys;
      InsertAllFrame(t, nid, es[1..], os[1..]);
    }
  }

  lemma InsertFrame<O>(s: State<O>, nid: string, e: Entry, o: O)
    requires nid in s.chains
    ensures var t := Insert(s, nid, e, o);
      t.finality == s.finality && t.messages == s.messages && t.flights == s.flights && t.pending == s.pending &&
      t.scan == s.scan && t.h == s.h && t.heap == s.heap[o := Cell(e, e.retry, 0)]
  {
  }

  lemma ShelveFrame<O>(s: State<O>, o: O, src: string)
    requires o in s.heap && src in s.chains
    ensures var t := Shelve(s, o, src);
      t.finality == s.finality && t.flights == s.flights && t.pending == s.pending && t.scan == s.scan && t.h == s.h
  {
  }

  lemma FailFrame<O>(s: State<O>, o: O, src: string, storeOk: bool)
    requires o in s.heap && src in s.chains
    ensures var t := Fail(s, o, src, storeOk);
      t.finality == s.finality && t.flights == s.flights && t.pending == s.pending && t.scan == s.scan &&
      t.h.known == s.h.known
  {
    ShelveFrame(GiveBack(s, o), o, src);
  }

  lemma ClearFrame<O>(s: State<O>, nid: string, k: MessageKey, deleteOk: bool)
    requires nid in s.chains
    ensures var t := Clear(s, nid, k, deleteOk);
      t.finality == s.finality && t.pending == s.pending && t.scan == s.scan && t.h == s.h
  {
  }

  lemma LaunchFrame<O>(s: State<O>, nid: string, o: O, fid: nat)
    requires o in s.heap
    ensures var t := Launch(s, nid, o, fid);
      t.finality == s.finality && t.pending == s.pending && t.scan == s.scan && t.h.known == s.h.known
  {
  }

  lemma ProcessFrame<O>(s: State<O>, nid: string, k: MessageKey, willing: bool, received: Answer<bool>, deleteOk: bool,
                        fid: nat)
    requires Cached(s, nid, k) && s.chains[nid].cache[k] in s.heap
    ensures var t := ApplyProcess(s, nid, k, willing, received, deleteOk, fid);
      t.finality == s.finality && t.pending == s.pending && t.scan == s.scan && t.h.known == s.h.known
  {
    var o := s.chains[nid].cache[k];
    var key := s.heap[o].e.msg.Key();
    ClearFrame(s.(h := s.h.(unknownDst := s.h.unknownDst + {key})), nid, key, deleteOk);
    ClearFrame(s.(h := s.h.(confirmed := s.h.confirmed + {key})), nid, key, deleteOk);
    LaunchFrame(s, nid, o, fid);
  }

  lemma SuccessFrame<O>(s: State<O>, fid: nat, txHash: string, txHeight: nat, writeOk: bool, deleteOk: bool)
    requires CanLand(s, fid)
    ensures var t := ApplySuccess(s, fid, txHash, txHeight, writeOk, deleteOk);
      t.heap == s.heap && t.pending == s.pending && t.scan == s.scan && t.h.known == s.h.known
  {
  }

  lemma WithdrawFrame<O>(s: State<O>, tx: TxObject)
    ensures var t := Withdraw(Checked(s, tx), tx);
      t.heap == s.heap && t.messages == s.messages && t.flights == s.flights && t.pending == s.pending && t.h == s.h &&
      t.chains == s.chains
  {
  }

  lemma CheckFrame<O>(s: State<O>, tx: TxObject, receipt: Answer<bool>, deleteOk: bool, generated: Option<Message>,
                      o: O)
    requires s.scan.nid in s.chains
    ensures var t := ApplyCheck(s, tx, receipt, deleteOk, generated, o);
      t.messages == s.messages && t.flights == s.flights && t.pending == s.pending && t.h.known == s.h.known
  {
    WithdrawFrame(s, tx);
    if Deletes(s, tx, receipt, deleteOk) && !receipt.value && generated.Some? {
      InsertFrame(Withdraw(Checked(s, tx), tx), tx.key.src, Fresh(generated.value), o);
    }
  }

  /** A check makes an object only when it generates a message again. */
  lemma CheckHeap<O>(s: State<O>, tx: TxObject, receipt: Answer<bool>, deleteOk: bool, generated: Option<Message>,
                     o: O)
    requires s.scan.nid in s.chains
    ensures var t := ApplyCheck(s, tx, receipt, deleteOk, generated, o);
      t.h.dispatched == s.h.dispatched && t.h.writeFailures == s.h.writeFailures &&
      t.heap == if Deletes(s, tx, receipt, deleteOk) && !receipt.value && generated.Some?
                then s.heap[o := Cell(Fresh(generated.value), 0, 0)] else s.heap
  {
    WithdrawFrame(s, tx);
    if Deletes(s, tx, receipt, deleteOk) && !receipt.value && generated.Some? {
      InsertFrame(Withdraw(Checked(s, tx), tx), tx.key.src, Fresh(generated.value), o);
    }
  }

  lemma FailureFrame<O>(s: State<O>, step: Step<O>)
    requires Enabled(s, step) && (step.RouteError? || step.CallbackFailure?)
    ensures var t := Apply(s, step);
      t.finality == s.finality && t.pending == s.pending && t.scan == s.scan && t.h.known == s.h.known
  {
    var f := s.flights[step.fid];
    FailFrame(Landed(s, step.fid), f.obj, f.src, step.storeOk);
    if f.key in s.chains[f.src].cache {
      FailFrame(Landed(s, step.fid), s.chains[f.src].cache[f.key], f.src, step.storeOk);
    }
  }

  /** Messages become known through blocks only, and wait to be merged through blocks and merges only. */
  lemma StepFrame<O>(s: State<O>, step: Step<O>)
    requires Enabled(s, step)
    ensures s.h.known <= Apply(s, step).h.known
    ensures !step.ProcessBlock? ==> Apply(s, step).h.known == s.h.known
    ensures !step.ProcessBlock? && !step.Merge? ==> Apply(s, step).pending == s.pending
    ensures !step.ScanTx? && !step.CheckTx? ==> Apply(s, step).scan == s.scan
    ensures !step.CallbackSuccess? && !step.CheckTx? ==> Apply(s, step).finality == s.finality
  {
    match step
    case ProcessBlock(_, _, _, _) =>
    case Merge(_, _) =>
    case Flush(nid, listing, os) => InsertAllFrame(s, nid, Active(Entries(s.messages, listing)), os);
    case Process(nid, k, willing, received, deleteOk, fid) => ProcessFrame(s, nid, k, willing, received, deleteOk, fid);
    case RouteError(_, _) => FailureFrame(s, step);
    case CallbackFailure(_, _) => FailureFrame(s, step);
    case CallbackSuccess(fid, txHash, txHeight, writeOk, deleteOk) =>
      SuccessFrame(s, fid, txHash, txHeight, writeOk, deleteOk);
    case ScanTx(_) =>
    case CheckTx(tx, receipt, deleteOk, generated, o) => CheckFrame(s, tx, receipt, deleteOk, generated, o);
  }
}
