/** Finality safety: where tx objects come from, and when they may go. */
module RelayFinality {
  import opened Types
  import opened RelaySpec
  import opened RelayFrames
  import opened RelayInvariants
  import opened RelayNoLoss

  /** The record that the step writes, when it is a success on a chain with a finality depth. */
  ghost function NewTx<O>(s: State<O>, step: Step<O>): Option<TxObject>
    requires Enabled(s, step)
  {
    match step
    case CallbackSuccess(fid, txHash, txHeight, writeOk, _) =>
      var f := s.flights[fid];
      if s.chains[f.dst].depth > 0 && f.key in s.chains[f.src].cache && writeOk
      then Some(TxObject(f.key, s.heap[s.chains[f.src].cache[f.key]].e.msg.height, txHash, txHeight))
      else None
    case _ => None
  }

  ghost predicate Records<O>(s: State<O>, step: Step<O>, t: TxObject)
    requires Enabled(s, step)
  {
    NewTx(s, step) == Some(t)
  }

  /** The step deletes what is at `sl`, because of a tx object for this place that a scan saw: that one
      is final, the receipt query answered, and either its receipt is good or the source chain is
      there to generate the message again. */
  ghost predicate Retires<O>(s: State<O>, step: Step<O>, sl: Slot)
    requires Enabled(s, step)
  {
    step.CheckTx? && DstSlot(step.t.key) == sl && Deletes(s, step.t, step.receipt, step.deleteOk)
  }

  /** Final means deep enough below the last block that the scan saw, unless the sum wraps around. */
  lemma FinalIsDeep<O>(s: State<O>, t: TxObject)
    requires s.scan.nid in s.chains && t.txHeight + s.chains[s.scan.nid].depth < TWO64
    ensures IsFinal(s, t) <==> t.txHeight != 0 && t.txHeight + s.chains[s.scan.nid].depth <= s.scan.height
  {
    var h := t.txHeight + s.chains[s.scan.nid].depth;
    assert h % TWO64 == h;
  }

  lemma SuccessFinality<O>(s: State<O>, fid: nat, txHash: string, txHeight: nat, writeOk: bool, deleteOk: bool)
    requires CanLand(s, fid)
    ensures var t := ApplySuccess(s, fid, txHash, txHeight, writeOk, deleteOk).finality; var f := s.flights[fid];
      if s.chains[f.dst].depth > 0 && f.key in s.chains[f.src].cache && writeOk
      then
        var height := s.heap[s.chains[f.src].cache[f.key]].e.msg.height;
        t == s.finality[DstSlot(f.key) := TxObject(f.key, height, txHash, txHeight)]
      else t == s.finality
  {
  }

  lemma CheckFinalityStore<O>(s: State<O>, x: TxObject, receipt: Answer<bool>, deleteOk: bool,
                              generated: Option<Message>, o: O)
    requires Enabled(s, CheckTx(x, receipt, deleteOk, generated, o))
    ensures var t := ApplyCheck(s, x, receipt, deleteOk, generated, o);
      t.finality == (if Deletes(s, x, receipt, deleteOk) then s.finality - {DstSlot(x.key)} else s.finality) &&
      t.scan == s.scan.(left := s.scan.left - {x})
  {
    if Deletes(s, x, receipt, deleteOk) && !receipt.value && generated.Some? {
      InsertFrame(Withdraw(Checked(s, x), x), x.key.src, Fresh(generated.value), o);
    }
  }

  /** What one step does to the place of a tx object, exactly: a success records there, a check
      that retires it empties it, and nothing else changes it. */
  lemma StepFinality<O>(s: State<O>, step: Step<O>, sl: Slot)
    requires Enabled(s, step)
    ensures var t := Apply(s, step); var record := NewTx(s, step);
      if record.Some? && DstSlot(record.value.key) == sl then sl in t.finality && t.finality[sl] == record.value
      else if Retires(s, step, sl) then sl !in t.finality
      else (sl in t.finality <==> sl in s.finality) && (sl in s.finality ==> t.finality[sl] == s.finality[sl])
  {
    if step.CallbackSuccess? {
      var CallbackSuccess(fid, txHash, txHeight, writeOk, deleteOk) := step;
      SuccessFinality(s, fid, txHash, txHeight, writeOk, deleteOk);
    } else if step.CheckTx? {
      var CheckTx(x, receipt, deleteOk, generated, o) := step;
      CheckFinalityStore(s, x, receipt, deleteOk, generated, o);
    } else {
      StepFrame(s, step);
    }
  }

  ghost predicate RecordedDuring<O>(s: State<O>, steps: seq<Step<O>>, t: TxObject)
    requires ValidRun(s, steps)
    decreases |steps|
  {
    steps != [] && (Records(s, steps[0], t) || RecordedDuring(Apply(s, steps[0]), steps[1..], t))
  }

  ghost predicate RetiredDuring<O>(s: State<O>, steps: seq<Step<O>>, sl: Slot)
    requires ValidRun(s, steps)
    decreases |steps|
  {
    steps != [] && (Retires(s, steps[0], sl) || RetiredDuring(Apply(s, steps[0]), steps[1..], sl))
  }

  /** Over every run: a tx object that is there at the end was there at the start, or records a
      success of the run on a chain with a finality depth. */
  lemma {:induction false} TxObjectsAreSuccesses<O>(s: State<O>, steps: seq<Step<O>>, sl: Slot)
    requires ValidRun(s, steps) && sl in Exec(s, steps).finality
    ensures var t := Exec(s, steps).finality[sl];
      (sl in s.finality && s.finality[sl] == t) || RecordedDuring(s, steps, t)
    decreases |steps|
  {
    if steps != [] {
      StepFinality(s, steps[0], sl);
      TxObjectsAreSuccesses(Apply(s, steps[0]), steps[1..], sl);
    }
  }

  /** Over every run: the place of a tx object is empty at the end only if a check retired what
      was there. Errors of the receipt query never remove it. */
  lemma {:induction false} TxObjectsStayUntilFinal<O>(s: State<O>, steps: seq<Step<O>>, sl: Slot)
    requires ValidRun(s, steps) && sl in s.finality
    ensures sl in Exec(s, steps).finality || RetiredDuring(s, steps, sl)
    decreases |steps|
  {
    if steps != [] {
      StepFinality(s, steps[0], sl);
      if sl in Apply(s, steps[0]).finality {
        TxObjectsStayUntilFinal(Apply(s, steps[0]), steps[1..], sl);
      }
    }
  }

  /** What replaces a tx object in between is for the same message, when destinations see distinct numbers. */
  lemma TxObjectsKeepTheirMessage<O>(s: State<O>, steps: seq<Step<O>>, sl: Slot)
    requires WellFormed(s) && ValidRun(s, steps) && NumberedAtDestination(Exec(s, steps).h.known)
    requires sl in s.finality && sl in Exec(s, steps).finality
    ensures Exec(s, steps).finality[sl].key == s.finality[sl].key
  {
    RunWellFormed(s, steps);
    KnownGrows(s, steps);
  }

  // ---------- between a scan and its checks ----------

  /** What the last success of the run for this place recorded. */
  ghost function LastRecord<O>(s: State<O>, steps: seq<Step<O>>, sl: Slot): Option<TxObject>
    requires ValidRun(s, steps)
    decreases |steps|
  {
    if steps == [] then None
    else
      var later := LastRecord(Apply(s, steps[0]), steps[1..], sl);
      var record := NewTx(s, steps[0]);
      if later.Some? then later else if record.Some? && DstSlot(record.value.key) == sl then record else None
  }

  /** A scan sees all tx objects of the chain, one for each place, and the last block of now. */
  lemma ScanSees<O>(s: State<O>, sl: Slot)
    requires StoresOk(s) && sl in s.finality && sl.nid in s.chains
    ensures var t := ApplyScan(s, sl.nid); var x := s.finality[sl];
      && DstSlot(x.key) == sl && x in t.scan.left && OnlyOneAt(t.scan, x)
      && t.scan.height == s.chains[sl.nid].lastBlock && t.scan.nid == sl.nid
      && forall y :: y in t.scan.left <==> y.key.dst == sl.nid && DstSlot(y.key) in s.finality &&
                                           s.finality[DstSlot(y.key)] == y
  {
  }

  ghost predicate OnlyOneAt(scan: TxScan, x: TxObject)
  {
    forall y :: y in scan.left && DstSlot(y.key) == DstSlot(x.key) ==> y == x
  }

  /** Whatever happens between the scan of a tx object and its check, the scan keeps its height, and
      in the place is exactly the record of the last success since then, or else what the scan saw. So
      the check deletes what it scanned if and only if no success recorded something else. */
  lemma {:induction false} AtItsPlace<O>(s: State<O>, steps: seq<Step<O>>, x: TxObject)
    requires ValidRun(s, steps) && x in s.scan.left && OnlyOneAt(s.scan, x) && DstSlot(x.key) in s.finality
    requires forall step :: step in steps && step.CheckTx? ==> step.t != x
    ensures var t := Exec(s, steps); var sl := DstSlot(x.key); var last := LastRecord(s, steps, sl);
      x in t.scan.left && t.scan.nid == s.scan.nid && t.scan.height == s.scan.height &&
      sl in t.finality && t.finality[sl] == if last.Some? then last.value else s.finality[sl]
    decreases |steps|
  {
    if steps != [] {
      assert steps[0] in steps;
      StepFinality(s, steps[0], DstSlot(x.key));
      ScanLasts(s, steps[0], x);
      AtItsPlace(Apply(s, steps[0]), steps[1..], x);
    }
  }

  lemma ScanLasts<O>(s: State<O>, step: Step<O>, x: TxObject)
    requires Enabled(s, step) && x in s.scan.left && (step.CheckTx? ==> step.t != x)
    ensures var t := Apply(s, step).scan;
      t.nid == s.scan.nid && t.height == s.scan.height && x in t.left && t.left <= s.scan.left
  {
    if step.CheckTx? {
      var CheckTx(y, receipt, deleteOk, generated, o) := step;
      CheckFinalityStore(s, y, receipt, deleteOk, generated, o);
    } else {
      StepFrame(s, step);
    }
  }

  /** From the scan on: when the check of `x` then deletes, it deletes `x` itself if and only if the
      successes since the scan left `x` in its place; and `x` was final for the last block of the scan. */
  lemma CheckDeletesScanned<O>(s: State<O>, sl: Slot, steps: seq<Step<O>>, check: Step<O>)
    requires WellFormed(s) && sl in s.finality && Enabled(s, ScanTx(sl.nid)) && ValidRun(ApplyScan(s, sl.nid), steps)
    requires forall step :: step in steps && step.CheckTx? ==> step.t != s.finality[sl]
    requires Enabled(Exec(ApplyScan(s, sl.nid), steps), check) && check.CheckTx? && check.t == s.finality[sl]
    requires Retires(Exec(ApplyScan(s, sl.nid), steps), check, sl)
    ensures var t := Exec(ApplyScan(s, sl.nid), steps);
      && sl in t.finality && sl !in Apply(t, check).finality
      && (t.finality[sl] == s.finality[sl] <==>
        LastRecord(ApplyScan(s, sl.nid), steps, sl) in {None, Some(s.finality[sl])})
      && IsFinal(t, s.finality[sl]) && t.scan.height == s.chains[sl.nid].lastBlock
  {
    ScanSees(s, sl);
    AtItsPlace(ApplyScan(s, sl.nid), steps, s.finality[sl]);
    StepFinality(Exec(ApplyScan(s, sl.nid), steps), check, sl);
  }
}
