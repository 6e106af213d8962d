/** The heights that a run saves (relayer/relay.go:276-296). */
module RelayHeights {
  import opened Types
  import opened RelaySpec

  /** The heights of all chains, and the block store, are the same. */
  ghost predicate SameHeights<O>(s: State<O>, t: State<O>)
  {
    && s.chains.Keys == t.chains.Keys && s.blocks == t.blocks
    && forall n :: n in s.chains ==> s.chains[n].depth == t.chains[n].depth &&
                                     s.chains[n].lastBlock == t.chains[n].lastBlock &&
                                     s.chains[n].lastSaved == t.chains[n].lastSaved
  }

  lemma {:induction false} InsertAllHeights<O>(s: State<O>, nid: string, es: seq<Entry>, os: seq<O>)
    requires nid in s.chains && |es| == |os|
    ensures SameHeights(s, InsertAll(s, nid, es, os))
    decreases |es|
  {
    if es != [] {
      var t := Insert(s, nid, es[0], os[0]);
      assert SameHeights(s, t);
      InsertAllHeights(t, nid, es[1..], os[1..]);
    }
  }

  lemma FailHeights<O>(s: State<O>, o: O, src: string, storeOk: bool)
    requires o in s.heap && src in s.chains
    ensures SameHeights(s, Fail(s, o, src, storeOk))
  {
  }

  lemma ClearHeights<O>(s: State<O>, nid: string, k: MessageKey, deleteOk: bool)
    requires nid in s.chains
    ensures SameHeights(s, Clear(s, nid, k, deleteOk))
  {
  }

  lemma LaunchHeights<O>(s: State<O>, nid: string, o: O, fid: nat)
    requires o in s.heap
    ensures SameHeights(s, Launch(s, nid, o, fid))
  {
  }

  lemma ProcessHeights<O>(s: State<O>, nid: string, k: MessageKey, willing: bool, received: Answer<bool>,
                          deleteOk: bool, fid: nat)
    requires Enabled(s, Process(nid, k, willing, received, deleteOk, fid))
    ensures SameHeights(s, ApplyProcess(s, nid, k, willing, received, deleteOk, fid))
  {
    var o := s.chains[nid].cache[k];
    var e := s.heap[o].e;
    var key := e.msg.Key();
    if e.msg.dst !in s.chains {
      ClearHeights(s.(h := s.h.(unknownDst := s.h.unknownDst + {key})), nid, key, deleteOk);
    } else if e.isProcessing || !willing || received.Error? {
    } else if received.value {
      ClearHeights(s.(h := s.h.(confirmed := s.h.confirmed + {key})), nid, key, deleteOk);
    } else {
      LaunchHeights(s, nid, o, fid);
    }
  }

  lemma SuccessHeights<O>(s: State<O>, fid: nat, txHash: string, txHeight: nat, writeOk: bool, deleteOk: bool)
    requires CanLand(s, fid)
    ensures SameHeights(s, ApplySuccess(s, fid, txHash, txHeight, writeOk, deleteOk))
  {
    var f := s.flights[fid];
    var l := Landed(s, fid);
    ClearHeights(l.(h := l.h.(confirmed := l.h.confirmed + {f.key})), f.src, f.key, deleteOk);
    if f.key in s.chains[f.src].cache {
      var t := TxObject(f.key, s.heap[s.chains[f.src].cache[f.key]].e.msg.height, txHash, txHeight);
      ClearHeights(l.(finality := l.finality[DstSlot(t.key) := t]), f.src, t.key, deleteOk);
    }
  }

  lemma InsertHeights<O>(s: State<O>, nid: string, e: Entry, o: O)
    requires nid in s.chains
    ensures SameHeights(s, Insert(s, nid, e, o))
  {
  }

  lemma CheckHeights<O>(s: State<O>, t: TxObject, receipt: Answer<bool>, deleteOk: bool, generated: Option<Message>,
                        o: O)
    requires Enabled(s, CheckTx(t, receipt, deleteOk, generated, o))
    ensures SameHeights(s, ApplyCheck(s, t, receipt, deleteOk, generated, o))
  {
    if !IsFinal(s, t) || receipt.Error? || receipt.value || t.key.src !in s.chains || !deleteOk || generated.None? {
    } else {
      InsertHeights(Withdraw(Checked(s, t), t), t.key.src, Fresh(generated.value), o);
    }
  }

  lemma FailureHeights<O>(s: State<O>, step: Step<O>)
    requires Enabled(s, step) && (step.RouteError? || step.CallbackFailure?)
    ensures SameHeights(s, Apply(s, step))
  {
    var f := s.flights[step.fid];
    FailHeights(Landed(s, step.fid), f.obj, f.src, step.storeOk);
    if f.key in s.chains[f.src].cache {
      FailHeights(Landed(s, step.fid), s.chains[f.src].cache[f.key], f.src, step.storeOk);
    }
  }

  /** Only blocks move the heights. */
  lemma StepHeights<O>(s: State<O>, step: Step<O>)
    requires Enabled(s, step) && !step.ProcessBlock?
    ensures SameHeights(s, Apply(s, step))
  {
    match step
    case Merge(_, _) =>
    case Flush(nid, listing, os) => InsertAllHeights(s, nid, Active(Entries(s.messages, listing)), os);
    case Process(nid, k, willing, received, deleteOk, fid) =>
      ProcessHeights(s, nid, k, willing, received, deleteOk, fid);
    case RouteError(_, _) => FailureHeights(s, step);
    case CallbackFailure(_, _) => FailureHeights(s, step);
    case CallbackSuccess(fid, txHash, txHeight, writeOk, deleteOk) =>
      SuccessHeights(s, fid, txHash, txHeight, writeOk, deleteOk);
    case ScanTx(_) =>
    case CheckTx(t, receipt, deleteOk, generated, o) => CheckHeights(s, t, receipt, deleteOk, generated, o);
  }

  function Save(lastSaved: nat, height: nat, messageCount: nat): nat
    requires lastSaved < TWO64 && height < TWO64
  {
    if MustSave(lastSaved, height, messageCount) then height else lastSaved
  }

  /** The saved height is never above the block, and at most ten below it, unless the height fell
      from the very end of the uint64 range to its very beginning. */
  lemma SaveGap(lastSaved: nat, height: nat, messageCount: nat)
    requires lastSaved < TWO64 && height < TWO64
    ensures var saved := Save(lastSaved, height, messageCount);
      && (saved <= height <= saved + 10 <==> messageCount > 0 || lastSaved < height + TWO64 - 10)
      && (messageCount > 0 ==> saved == height)
  {
  }

  // ---------- over a run ----------

  datatype Block = Block(height: nat, messageCount: nat)

  /** The blocks of a chain that a run processes, in order. */
  function BlocksOf<O>(steps: seq<Step<O>>, nid: string): seq<Block>
  {
    if steps == [] then []
    else
      var rest := BlocksOf(steps[1..], nid);
      if steps[0].ProcessBlock? && steps[0].nid == nid then [Block(steps[0].height, |steps[0].msgs|)] + rest else rest
  }

  function SaveBlocks(lastSaved: nat, blocks: seq<Block>): (saved: nat)
    requires lastSaved < TWO64 && forall b :: b in blocks ==> b.height < TWO64
    ensures saved < TWO64
    decreases |blocks|
  {
    if blocks == [] then lastSaved
    else SaveBlocks(Save(lastSaved, blocks[0].height, blocks[0].messageCount), blocks[1..])
  }

  ghost predicate WritesSucceed<O>(steps: seq<Step<O>>)
  {
    forall i :: 0 <= i < |steps| && steps[i].ProcessBlock? ==> steps[i].writeOk
  }

  /** What a restart would read back. */
  ghost function Reloaded<O>(s: State<O>, nid: string): nat { if nid in s.blocks then s.blocks[nid] else 0 }

  /** In every run the saved height of a chain is decided by the blocks of that chain alone; the
      next session reads it back if the writes succeed. */
  lemma {:induction false} RunSaves<O>(s: State<O>, steps: seq<Step<O>>, nid: string)
    requires ValidRun(s, steps) && nid in s.chains && s.chains[nid].lastSaved < TWO64
    ensures forall b :: b in BlocksOf(steps, nid) ==> b.height < TWO64
    ensures var t := Exec(s, steps);
      nid in t.chains && t.chains[nid].lastSaved == SaveBlocks(s.chains[nid].lastSaved, BlocksOf(steps, nid))
    ensures WritesSucceed(steps) && Reloaded(s, nid) == s.chains[nid].lastSaved ==>
              Reloaded(Exec(s, steps), nid) == Exec(s, steps).chains[nid].lastSaved
    decreases |steps|
  {
    if steps != [] {
      var t := Apply(s, steps[0]);
      if steps[0].ProcessBlock? {
        assert WritesSucceed(steps) ==> steps[0].writeOk;
      } else {
        StepHeights(s, steps[0]);
      }
      RunSaves(t, steps[1..], nid);
      assert WritesSucceed(steps) ==> WritesSucceed(steps[1..]);
    }
  }

  /** So in every run, the saved height of a chain follows its last block, for all heights that
      stay away from the end of the uint64 range. */
  lemma {:induction false} SaveGapInRuns<O>(s: State<O>, steps: seq<Step<O>>, nid: string)
    requires ValidRun(s, steps) && nid in s.chains && s.chains[nid].lastSaved < TWO64 - 10
    requires forall b :: b in BlocksOf(steps, nid) ==> b.height < TWO64 - 10
    ensures nid in Exec(s, steps).chains
    ensures (BlocksOf(steps, nid) != [] ||
             s.chains[nid].lastSaved <= s.chains[nid].lastBlock <= s.chains[nid].lastSaved + 10) ==>
              var c := Exec(s, steps).chains[nid]; c.lastSaved <= c.lastBlock <= c.lastSaved + 10
    decreases |steps|
  {
    if steps != [] {
      var t := Apply(s, steps[0]);
      if steps[0].ProcessBlock? {
        if steps[0].nid == nid {
          assert Block(steps[0].height, |steps[0].msgs|) in BlocksOf(steps, nid);
          SaveGap(s.chains[nid].lastSaved, steps[0].height, |steps[0].msgs|);
        }
      } else {
        StepHeights(s, steps[0]);
      }
      SaveGapInRuns(t, steps[1..], nid);
    }
  }
}
