/** No message is lost silently. */
module RelayNoLoss {
  import opened Types
  import opened RelaySpec
  import opened RelayFrames
  import opened RelayInvariants

  ghost predicate Stored<O>(s: State<O>, k: MessageKey)
  {
    SrcSlot(k) in s.messages && s.messages[SrcSlot(k)].msg.Key() == k
  }

  /** The relayed transaction of the message is under observation. */
  ghost predicate Watched<O>(s: State<O>, k: MessageKey)
  {
    DstSlot(k) in s.finality && s.finality[DstSlot(k)].key == k
  }

  ghost predicate Awaiting<O>(s: State<O>, k: MessageKey) { exists m :: m in s.pending && m.Key() == k }

  ghost predicate Closed<O>(s: State<O>, k: MessageKey)
  {
    k in s.h.confirmed || k in s.h.unknownDst || k in s.h.notRegenerated
  }

  ghost predicate Elsewhere<O>(s: State<O>, k: MessageKey)
  {
    Cached(s, k.src, k) || Stored(s, k) || Awaiting(s, k) || Closed(s, k)
  }

  ghost predicate Accounted<O>(s: State<O>, k: MessageKey) { Elsewhere(s, k) || Watched(s, k) }

  ghost predicate NoLoss<O>(s: State<O>) { forall k :: k in s.h.known ==> Accounted(s, k) }

  /** A source chain gives every message its own number. */
  ghost predicate Numbered(ks: set<MessageKey>)
  {
    forall a, b :: a in ks && b in ks && a.src == b.src && a.sn == b.sn ==> a == b
  }

  /** The tx object of another message goes: a success takes its place, or a check that scanned an
      older tx object deletes it. */
  ghost predicate Displaces<O>(s: State<O>, step: Step<O>)
    requires Enabled(s, step)
  {
    match step
    case CallbackSuccess(fid, _, _, writeOk, _) =>
      var f := s.flights[fid];
      s.chains[f.dst].depth > 0 && f.key in s.chains[f.src].cache && writeOk && OtherAt(s, f.key)
    case CheckTx(t, receipt, deleteOk, _, _) => Deletes(s, t, receipt, deleteOk) && OtherAt(s, t.key)
    case _ => false
  }

  /** The place of the tx object of `k` is taken by another message. */
  ghost predicate OtherAt<O>(s: State<O>, k: MessageKey) { DstSlot(k) in s.finality && s.finality[DstSlot(k)].key != k }

  ghost function Victim<O>(s: State<O>, step: Step<O>): MessageKey
    requires Enabled(s, step) && Displaces(s, step)
  {
    s.finality[DstSlot(if step.CallbackSuccess? then s.flights[step.fid].key else step.t.key)].key
  }

  lemma {:induction false} InsertAllKeeps<O>(s: State<O>, nid: string, es: seq<Entry>, os: seq<O>)
    requires nid in s.chains && |es| == |os|
    ensures var t := InsertAll(s, nid, es, os);
      t.h == s.h && forall k :: k in s.h.known && Accounted(s, k) ==> Accounted(t, k)
    decreases |es|
  {
    if es != [] {
      var t := Insert(s, nid, es[0], os[0]);
      InsertAllKeeps(t, nid, es[1..], os[1..]);
      forall k | k in s.h.known && Accounted(s, k) ensures Accounted(t, k) {
        if Awaiting(s, k) { assert Awaiting(t, k); }
      }
    }
  }

  /** Clearing one message loses no other one. */
  lemma ClearKeepsOthers<O>(s: State<O>, nid: string, k: MessageKey, deleteOk: bool, k': MessageKey)
    requires nid in s.chains && k in s.h.known && k' in s.h.known && Numbered(s.h.known)
    requires k != k' && Accounted(s, k')
    ensures Accounted(Clear(s, nid, k, deleteOk), k')
  {
    if Awaiting(s, k') { assert Awaiting(Clear(s, nid, k, deleteOk), k'); }
  }

  lemma ShelveKeeps<O>(s: State<O>, o: O, src: string, k: MessageKey)
    requires o in s.heap && src in s.chains && s.heap[o].e.msg.Key() in s.h.known
    requires k in s.h.known && Accounted(s, k) && Numbered(s.h.known)
    ensures Accounted(Shelve(s, o, src), k)
  {
    var t := Shelve(s, o, src);
    var k' := s.heap[o].e.msg.Key();
    if k == k' { assert Stored(t, k); }
    else if Awaiting(s, k) { assert Awaiting(t, k); }
    else if Stored(s, k) { assert Stored(t, k); }
  }

  lemma FailKeeps<O>(s: State<O>, o: O, src: string, storeOk: bool, k: MessageKey)
    requires o in s.heap && src in s.chains && s.heap[o].e.msg.Key() in s.h.known
    requires k in s.h.known && Accounted(s, k) && Numbered(s.h.known)
    ensures Accounted(Fail(s, o, src, storeOk), k)
  {
    var g := GiveBack(s, o);
    if Awaiting(s, k) { assert Awaiting(g, k); assert Awaiting(LoseWrite(g, o), k); }
    assert Accounted(g, k) && Accounted(LoseWrite(g, o), k);
    ShelveKeeps(g, o, src, k);
  }

  lemma ClearKeepsElsewhere<O>(s: State<O>, nid: string, k: MessageKey, deleteOk: bool, k': MessageKey)
    requires nid in s.chains && k in s.h.known && k' in s.h.known && Numbered(s.h.known) && k != k'
    ensures Elsewhere(Clear(s, nid, k, deleteOk), k') <==> Elsewhere(s, k')
  {
    var t := Clear(s, nid, k, deleteOk);
    assert t.pending == s.pending && (Awaiting(t, k') <==> Awaiting(s, k'));
    assert SrcSlot(k) != SrcSlot(k');
  }

  lemma ConfirmAccounts<O>(s: State<O>, nid: string, k: MessageKey, deleteOk: bool, k': MessageKey)
    requires nid in s.chains && k in s.h.known && k' in s.h.known && Numbered(s.h.known) && Accounted(s, k')
    ensures Accounted(Confirm(s, nid, k, deleteOk), k')
  {
    var s' := s.(h := s.h.(confirmed := s.h.confirmed + {k}));
    if Awaiting(s, k') { assert Awaiting(s', k'); }
    if k' != k { ClearKeepsOthers(s', nid, k, deleteOk, k'); }
  }

  // ---------- each step ----------

  lemma ProcessAccounts<O>(s: State<O>, nid: string, k: MessageKey, willing: bool, received: Answer<bool>,
                           deleteOk: bool, fid: nat, k': MessageKey)
    requires CacheOk(s) && Cached(s, nid, k) && s.chains[nid].cache[k] in s.heap
    requires Numbered(s.h.known) && k' in s.h.known && Accounted(s, k')
    ensures Accounted(ApplyProcess(s, nid, k, willing, received, deleteOk, fid), k')
  {
    assert CachedOk(s, nid, k);
    var o := s.chains[nid].cache[k];
    var t := ApplyProcess(s, nid, k, willing, received, deleteOk, fid);
    if s.heap[o].e.msg.dst !in s.chains {
      DropAccounts(s, nid, k, deleteOk, k');
    } else if s.heap[o].e.isProcessing || !willing || received.Error? {
      assert t == s;
    } else if received.value {
      ConfirmAccounts(s, nid, k, deleteOk, k');
    } else if Awaiting(s, k') {
      assert Awaiting(t, k');
    }
  }

  lemma DropAccounts<O>(s: State<O>, nid: string, k: MessageKey, deleteOk: bool, k': MessageKey)
    requires nid in s.chains && k in s.h.known && k' in s.h.known && Numbered(s.h.known) && Accounted(s, k')
    ensures Accounted(Clear(s.(h := s.h.(unknownDst := s.h.unknownDst + {k})), nid, k, deleteOk), k')
  {
    var s' := s.(h := s.h.(unknownDst := s.h.unknownDst + {k}));
    if Awaiting(s, k') { assert Awaiting(s', k'); }
    if k' != k { ClearKeepsOthers(s', nid, k, deleteOk, k'); }
  }

  lemma RouteErrorAccounts<O>(s: State<O>, fid: nat, storeOk: bool, k: MessageKey)
    requires FlightsOk(s) && CanLand(s, fid)
    requires Numbered(s.h.known) && k in s.h.known && Accounted(s, k)
    ensures Accounted(Apply(s, RouteError(fid, storeOk)), k)
  {
    LandedAccounts(s, fid, k);
    assert InFlightOk(s, fid);
    FailKeeps(Landed(s, fid), s.flights[fid].obj, s.flights[fid].src, storeOk, k);
  }

  lemma CallbackFailureAccounts<O>(s: State<O>, fid: nat, storeOk: bool, k: MessageKey)
    requires CacheOk(s) && CanLand(s, fid)
    requires Numbered(s.h.known) && k in s.h.known && Accounted(s, k)
    ensures Accounted(Apply(s, CallbackFailure(fid, storeOk)), k)
  {
    var f := s.flights[fid];
    LandedAccounts(s, fid, k);
    if f.key in s.chains[f.src].cache {
      assert Cached(s, f.src, f.key) && CachedOk(s, f.src, f.key);
      FailKeeps(Landed(s, fid), s.chains[f.src].cache[f.key], f.src, storeOk, k);
    }
  }

  /** The tx object of a message enters the finality store, and the message leaves the cache. */
  lemma WatchAccounts<O>(s: State<O>, nid: string, tx: TxObject, deleteOk: bool, k: MessageKey)
    requires nid in s.chains && forall sl :: sl in s.finality ==> DstSlot(s.finality[sl].key) == sl
    requires tx.key in s.h.known && k in s.h.known && Numbered(s.h.known) && Accounted(s, k)
    ensures Accounted(Watch(s, nid, tx, deleteOk), k) <==>
      (k != tx.key && DstSlot(k) == DstSlot(tx.key) ==> Elsewhere(s, k))
  {
    var s' := s.(finality := s.finality[DstSlot(tx.key) := tx]);
    var t := Clear(s', nid, tx.key, deleteOk);
    if k == tx.key {
      assert Watched(t, k);
    } else {
      assert s'.pending == s.pending && (Awaiting(s', k) <==> Awaiting(s, k));
      ClearKeepsElsewhere(s', nid, tx.key, deleteOk, k);
      assert Elsewhere(t, k) <==> Elsewhere(s, k);
    }
  }

  /** A success closes or watches its own message, and moves no other one but the victim. */
  lemma SuccessAccounts<O>(s: State<O>, step: Step<O>, k: MessageKey)
    requires WellFormed(s) && step.CallbackSuccess? && Enabled(s, step)
    requires Numbered(s.h.known) && k in s.h.known && Accounted(s, k)
    ensures Accounted(Apply(s, step), k) <==> (Displaces(s, step) && k == Victim(s, step) ==> Elsewhere(s, k))
  {
    var CallbackSuccess(fid, txHash, txHeight, writeOk, deleteOk) := step;
    var f := s.flights[fid];
    assert InFlightOk(s, fid);
    LandedAccounts(s, fid, k);
    if s.chains[f.dst].depth == 0 {
      ConfirmAccounts(Landed(s, fid), f.src, f.key, deleteOk, k);
    } else if f.key in s.chains[f.src].cache {
      if writeOk {
        var tx := TxObject(f.key, s.heap[s.chains[f.src].cache[f.key]].e.msg.height, txHash, txHeight);
        WatchAccounts(Landed(s, fid), f.src, tx, deleteOk, k);
      } else if Awaiting(s, k) {
        assert Awaiting(Apply(s, step), k);
      }
    }
  }

  lemma LandedAccounts<O>(s: State<O>, fid: nat, k: MessageKey)
    ensures Accounted(Landed(s, fid), k) <==> Accounted(s, k)
    ensures Elsewhere(Landed(s, fid), k) <==> Elsewhere(s, k)
  {
    assert Awaiting(Landed(s, fid), k) <==> Awaiting(s, k);
  }

  /** What is in the place of a tx object leaves the finality store; another message that was there
      must be elsewhere. */
  lemma WithdrawAccounts<O>(s: State<O>, tx: TxObject, k: MessageKey)
    requires k != tx.key && Accounted(s, k)
    ensures var t := Withdraw(Checked(s, tx), tx);
      (Elsewhere(t, k) <==> Elsewhere(s, k)) && (Watched(t, k) <==> Watched(s, k) && DstSlot(k) != DstSlot(tx.key))
  {
    var t := Withdraw(Checked(s, tx), tx);
    assert Awaiting(t, k) <==> Awaiting(s, k);
  }

  lemma CloseAccounts<O>(s: State<O>, t: State<O>, k: MessageKey)
    requires t == s.(h := t.h)
    requires (k in t.h.confirmed <==> k in s.h.confirmed) && (k in t.h.unknownDst <==> k in s.h.unknownDst)
    requires k in t.h.notRegenerated <==> k in s.h.notRegenerated
    ensures Accounted(t, k) <==> Accounted(s, k)
  {
    assert Awaiting(t, k) <==> Awaiting(s, k);
  }

  lemma CheckedAccounts<O>(s: State<O>, tx: TxObject, k: MessageKey)
    ensures Accounted(Checked(s, tx), k) <==> Accounted(s, k)
  {
    assert Awaiting(Checked(s, tx), k) <==> Awaiting(s, k);
  }

  lemma CheckAccounts<O>(s: State<O>, step: Step<O>, k: MessageKey)
    requires WellFormed(s) && step.CheckTx? && Enabled(s, step)
    requires k in s.h.known && Accounted(s, k)
    ensures Accounted(Apply(s, step), k) <==> (Displaces(s, step) && k == Victim(s, step) ==> Elsewhere(s, k))
  {
    var CheckTx(tx, receipt, deleteOk, generated, o) := step;
    if !Deletes(s, tx, receipt, deleteOk) {
      CheckedAccounts(s, tx, k);
    } else if k == tx.key {
      DeletedCloses(s, tx, receipt, deleteOk, generated, o);
    } else {
      DeletedAccounts(s, tx, receipt, deleteOk, generated, o, k);
    }
  }

  /** The message of the scanned tx object is confirmed, dropped or cached again. */
  lemma DeletedCloses<O>(s: State<O>, tx: TxObject, receipt: Answer<bool>, deleteOk: bool, generated: Option<Message>,
                         o: O)
    requires Enabled(s, CheckTx(tx, receipt, deleteOk, generated, o)) && Deletes(s, tx, receipt, deleteOk)
    ensures Accounted(ApplyCheck(s, tx, receipt, deleteOk, generated, o), tx.key)
  {
    var t := ApplyCheck(s, tx, receipt, deleteOk, generated, o);
    if !receipt.value && generated.Some? { assert Cached(t, tx.key.src, tx.key); }
  }

  lemma DeletedAccounts<O>(s: State<O>, tx: TxObject, receipt: Answer<bool>, deleteOk: bool,
                           generated: Option<Message>, o: O, k: MessageKey)
    requires StoresOk(s) && Enabled(s, CheckTx(tx, receipt, deleteOk, generated, o))
    requires Deletes(s, tx, receipt, deleteOk)
    requires k != tx.key && Accounted(s, k)
    ensures Accounted(ApplyCheck(s, tx, receipt, deleteOk, generated, o), k) <==>
              (OtherAt(s, tx.key) && k == s.finality[DstSlot(tx.key)].key ==> Elsewhere(s, k))
  {
    var c := Withdraw(Checked(s, tx), tx);
    var t := ApplyCheck(s, tx, receipt, deleteOk, generated, o);
    WithdrawAccounts(s, tx, k);
    if receipt.value || generated.None? {
      CloseAccounts(c, t, k);
    } else {
      RegenerateAccounts(c, tx.key.src, generated.value, o, k);
    }
  }

  lemma RegenerateAccounts<O>(s: State<O>, nid: string, m: Message, o: O, k: MessageKey)
    requires nid in s.chains && m.Key() != k
    ensures Accounted(Insert(s, nid, Fresh(m), o), k) <==> Accounted(s, k)
  {
    assert Awaiting(Insert(s, nid, Fresh(m), o), k) <==> Awaiting(s, k);
  }

  lemma MergeAccounts<O>(s: State<O>, m: Message, o: O, k: MessageKey)
    requires Enabled(s, Merge(m, o)) && Accounted(s, k)
    ensures Accounted(Apply(s, Merge(m, o)), k)
  {
    var t := Apply(s, Merge(m, o));
    if k == m.Key() {
      assert Cached(t, k.src, k);
    } else if Awaiting(s, k) {
      var m' :| m' in s.pending && m'.Key() == k;
      assert m' in t.pending;
    }
  }

  lemma BlockAccounts<O>(s: State<O>, nid: string, height: nat, msgs: seq<Message>, writeOk: bool, k: MessageKey)
    requires Enabled(s, ProcessBlock(nid, height, msgs, writeOk))
    requires k in ApplyBlock(s, nid, height, msgs, writeOk).h.known && (k in s.h.known ==> Accounted(s, k))
    ensures Accounted(ApplyBlock(s, nid, height, msgs, writeOk), k)
  {
    var t := ApplyBlock(s, nid, height, msgs, writeOk);
    if k !in s.h.known {
      var m :| m in msgs && m.Key() == k;
      assert m in multiset(msgs);
      assert m in t.pending;
    } else if Awaiting(s, k) {
      var m :| m in s.pending && m.Key() == k;
      assert m in t.pending;
    }
  }

  lemma ScanAccounts<O>(s: State<O>, nid: string, k: MessageKey)
    requires nid in s.chains
    ensures Accounted(ApplyScan(s, nid), k) <==> Accounted(s, k)
  {
    assert Awaiting(ApplyScan(s, nid), k) <==> Awaiting(s, k);
  }

  lemma StepAccounts<O>(s: State<O>, step: Step<O>, k: MessageKey)
    requires WellFormed(s) && Enabled(s, step) && Numbered(s.h.known)
    requires k in Apply(s, step).h.known && (k in s.h.known ==> Accounted(s, k))
    ensures Accounted(Apply(s, step), k) <==> (Displaces(s, step) && k == Victim(s, step) ==> Elsewhere(s, k))
  {
    match step
    case ProcessBlock(nid, height, msgs, writeOk) => BlockAccounts(s, nid, height, msgs, writeOk, k);
    case Merge(m, o) => MergeAccounts(s, m, o, k);
    case Flush(nid, listing, os) => InsertAllKeeps(s, nid, Active(Entries(s.messages, listing)), os);
    case Process(nid, k', willing, received, deleteOk, fid) =>
      StepFrame(s, step);
      ProcessAccounts(s, nid, k', willing, received, deleteOk, fid, k);
    case RouteError(fid, storeOk) => StepFrame(s, step); RouteErrorAccounts(s, fid, storeOk, k);
    case CallbackFailure(fid, storeOk) => StepFrame(s, step); CallbackFailureAccounts(s, fid, storeOk, k);
    case CallbackSuccess(_, _, _, _, _) => StepFrame(s, step); SuccessAccounts(s, step, k);
    case ScanTx(nid) => ScanAccounts(s, nid, k);
    case CheckTx(_, _, _, _, _) => StepFrame(s, step); CheckAccounts(s, step, k);
  }

  /** Exactly one thing loses a message: a success or a check that displaces the tx object of another
      message, when that message is nowhere else. */
  lemma StepKeepsAll<O>(s: State<O>, step: Step<O>)
    requires WellFormed(s) && NoLoss(s) && Enabled(s, step) && Numbered(s.h.known)
    ensures NoLoss(Apply(s, step)) <==> (Displaces(s, step) ==> Elsewhere(s, Victim(s, step)))
  {
    var t := Apply(s, step);
    StepFrame(s, step);
    forall k | k in t.h.known
      ensures Accounted(t, k) <==> (Displaces(s, step) && k == Victim(s, step) ==> Elsewhere(s, k))
    {
      StepAccounts(s, step, k);
    }
    if Displaces(s, step) {
      var k := Victim(s, step);
      assert k in s.h.known;
      assert k in t.h.known;
    }
  }

  ghost predicate AlwaysNoLoss<O>(s: State<O>, steps: seq<Step<O>>)
    requires ValidRun(s, steps)
    decreases |steps|
  {
    NoLoss(s) && (steps == [] || AlwaysNoLoss(Apply(s, steps[0]), steps[1..]))
  }

  /** Whenever a step displaces the tx object of a message, that message is held elsewhere. */
  ghost predicate VictimsHeld<O>(s: State<O>, steps: seq<Step<O>>)
    requires ValidRun(s, steps)
    decreases |steps|
  {
    steps == [] ||
    ((Displaces(s, steps[0]) ==> Elsewhere(s, Victim(s, steps[0]))) && VictimsHeld(Apply(s, steps[0]), steps[1..]))
  }

  /** No silent loss, over every run: if sources number their messages, then in all states of the run
      everything that a listener ever delivered is held somewhere, confirmed by its destination, or in
      one of the two explicit drops, if and only if the victims of the run are held elsewhere. */
  lemma {:induction false} NothingLostIff<O>(s: State<O>, steps: seq<Step<O>>)
    requires WellFormed(s) && NoLoss(s) && ValidRun(s, steps) && Numbered(Exec(s, steps).h.known)
    ensures AlwaysNoLoss(s, steps) <==> VictimsHeld(s, steps)
    decreases |steps|
  {
    if steps != [] {
      KnownGrows(s, steps);
      StepKeepsAll(s, steps[0]);
      StepWellFormed(s, steps[0]);
      var t := Apply(s, steps[0]);
      if NoLoss(t) {
        NothingLostIff(t, steps[1..]);
      } else {
        assert !AlwaysNoLoss(t, steps[1..]);
      }
    }
  }

  lemma {:induction false} AlwaysAtTheEnd<O>(s: State<O>, steps: seq<Step<O>>)
    requires ValidRun(s, steps) && AlwaysNoLoss(s, steps)
    ensures NoLoss(Exec(s, steps))
    decreases |steps|
  {
    if steps != [] { AlwaysAtTheEnd(Apply(s, steps[0]), steps[1..]); }
  }

  lemma {:induction false} KnownGrows<O>(s: State<O>, steps: seq<Step<O>>)
    requires ValidRun(s, steps)
    ensures s.h.known <= Exec(s, steps).h.known
    decreases |steps|
  {
    if steps != [] {
      StepFrame(s, steps[0]);
      KnownGrows(Apply(s, steps[0]), steps[1..]);
    }
  }

  /** No two messages for one destination have the same number. */
  ghost predicate NumberedAtDestination(ks: set<MessageKey>)
  {
    forall a, b :: a in ks && b in ks && a.dst == b.dst && a.sn == b.sn ==> a == b
  }

  lemma DisplacingIsClash<O>(s: State<O>, step: Step<O>)
    requires WellFormed(s) && Enabled(s, step)
    ensures Displaces(s, step) ==> !NumberedAtDestination(s.h.known)
  {
    if step.CallbackSuccess? { assert InFlightOk(s, step.fid); }
  }

  /** The condition holds in every run where destinations see distinct numbers. */
  lemma {:induction false} DistinctNumbersHoldVictims<O>(s: State<O>, steps: seq<Step<O>>)
    requires WellFormed(s) && ValidRun(s, steps) && NumberedAtDestination(Exec(s, steps).h.known)
    ensures VictimsHeld(s, steps)
    decreases |steps|
  {
    if steps != [] {
      KnownGrows(s, steps);
      DisplacingIsClash(s, steps[0]);
      StepWellFormed(s, steps[0]);
      DistinctNumbersHoldVictims(Apply(s, steps[0]), steps[1..]);
    }
  }

  lemma InitNoLoss<O>(s: State<O>)
    requires Init(s)
    ensures NoLoss(s)
  {
  }
}
