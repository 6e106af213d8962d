/** What every reachable state of the relayer satisfies: well-formed caches, flights and
    stores, and bounded retry counters. */
module RelayInvariants {
  import opened Types
  import opened RelaySpec

  /** Key `k` of the cache of chain `n` holds a message of that key, and of that source. */
  ghost predicate CachedOk<O>(s: State<O>, n: string, k: MessageKey)
    requires Cached(s, n, k)
  {
    k.src == n && k in s.h.known && s.chains[n].cache[k] in s.heap && s.heap[s.chains[n].cache[k]].e.msg.Key() == k
  }

  ghost predicate CacheOk<O>(s: State<O>)
  {
    && (forall n, k :: Cached(s, n, k) ==> CachedOk(s, n, k))
    && (forall n :: n in s.chains ==> s.chains[n].lastSaved < TWO64)
    && (forall m :: m in s.pending ==> m.src in s.chains && m.Key() in s.h.known)
  }

  ghost predicate InFlightOk<O>(s: State<O>, i: nat)
    requires i in s.flights
  {
    var f := s.flights[i];
    f.obj in s.heap && s.heap[f.obj].e.msg.Key() == f.key && f.key in s.h.known && f.src == f.key.src &&
    f.dst == f.key.dst && f.src in s.chains && f.dst in s.chains
  }

  ghost predicate FlightsOk<O>(s: State<O>) { forall i :: i in s.flights ==> InFlightOk(s, i) }

  ghost predicate StoresOk<O>(s: State<O>)
  {
    && (forall sl :: sl in s.messages ==>
      StoredOk(sl, s.messages[sl], s.h.lostBefore + s.h.writeFailures) && s.messages[sl].msg.Key() in s.h.known)
    && (forall sl :: sl in s.finality ==> DstSlot(s.finality[sl].key) == sl && s.finality[sl].key in s.h.known)
    && (forall x :: x in s.scan.left ==> x.key.dst == s.scan.nid && x.key in s.h.known)
  }

  /** An object may be attempted for one round of three, and for one more round after each
      write of it to the store that failed. */
  function Limit(c: Cell): nat { c.start + 3 * (1 + c.failedWrites) }

  predicate RetryOk(c: Cell, failures: nat)
  {
    c.start % 3 == 0 && c.start < 15 && c.failedWrites <= failures && c.start <= c.e.retry <= Limit(c)
  }

  ghost predicate RetriesOk<O>(s: State<O>) { forall o :: o in s.heap ==> RetryOk(s.heap[o], s.h.writeFailures) }

  /** The message lies idle in a cache, and waits for its next attempt. */
  ghost predicate Idle<O>(s: State<O>, n: string, k: MessageKey)
  {
    Cached(s, n, k) && s.chains[n].cache[k] in s.heap && !s.heap[s.chains[n].cache[k]].e.isProcessing
  }

  /** A message that waits in a cache may be attempted once more within its limit. */
  ghost predicate WaitingOk<O>(s: State<O>, n: string, k: MessageKey)
    requires Cached(s, n, k)
  {
    s.chains[n].cache[k] in s.heap &&
    var c := s.heap[s.chains[n].cache[k]];
    c.e.isProcessing || c.e.retry < Limit(c)
  }

  ghost predicate AllWaitingOk<O>(s: State<O>) { forall n, k :: Cached(s, n, k) ==> WaitingOk(s, n, k) }

  ghost predicate WellFormed<O>(s: State<O>)
  {
    CacheOk(s) && FlightsOk(s) && StoresOk(s) && RetriesOk(s) && AllWaitingOk(s)
  }

  lemma InitWellFormed<O>(s: State<O>)
    requires Init(s)
    ensures WellFormed(s)
  {
  }

  // ---------- the building blocks keep it ----------

  predicate Enters(e: Entry, nid: string) { e.msg.src == nid && !e.isProcessing && e.retry % 3 == 0 && e.retry < 15 }

  lemma InsertWellFormed<O>(s: State<O>, nid: string, e: Entry, o: O)
    requires WellFormed(s) && nid in s.chains && o !in s.heap && Enters(e, nid) && e.msg.Key() in s.h.known
    ensures WellFormed(Insert(s, nid, e, o))
  {
    var t := Insert(s, nid, e, o);
    forall n, k | Cached(t, n, k) ensures CachedOk(t, n, k) && WaitingOk(t, n, k) {
      assert Cached(s, n, k) || (n == nid && k == e.msg.Key());
    }
    forall i | i in t.flights ensures InFlightOk(t, i) { assert InFlightOk(s, i); }
  }

  lemma {:induction false} InsertAllWellFormed<O>(s: State<O>, nid: string, es: seq<Entry>, os: seq<O>)
    requires WellFormed(s) && nid in s.chains && |es| == |os|
    requires forall i :: 0 <= i < |os| ==> os[i] !in s.heap
    requires forall i, j :: 0 <= i < j < |os| ==> os[i] != os[j]
    requires forall e :: e in es ==> Enters(e, nid) && e.msg.Key() in s.h.known
    ensures WellFormed(InsertAll(s, nid, es, os))
    decreases |es|
  {
    if es != [] {
      assert es[0] in es;
      InsertWellFormed(s, nid, es[0], os[0]);
      InsertAllWellFormed(Insert(s, nid, es[0], os[0]), nid, es[1..], os[1..]);
    }
  }

  lemma ClearWellFormed<O>(s: State<O>, nid: string, k: MessageKey, deleteOk: bool)
    requires WellFormed(s) && nid in s.chains
    ensures WellFormed(Clear(s, nid, k, deleteOk))
  {
    var t := Clear(s, nid, k, deleteOk);
    forall n, k' | Cached(t, n, k') ensures CachedOk(t, n, k') && WaitingOk(t, n, k') {
      assert Cached(s, n, k');
    }
    forall i | i in t.flights ensures InFlightOk(t, i) { assert InFlightOk(s, i); }
  }

  /** Every cached message but those of object `o` may be attempted once more. */
  ghost predicate OthersWaitingOk<O>(s: State<O>, o: O)
  {
    forall n, k :: Cached(s, n, k) && s.chains[n].cache[k] != o ==> WaitingOk(s, n, k)
  }

  lemma GiveBackKeeps<O>(s: State<O>, o: O)
    requires WellFormed(s) && o in s.heap
    ensures var t := GiveBack(s, o);
      CacheOk(t) && FlightsOk(t) && StoresOk(t) && RetriesOk(t) && OthersWaitingOk(t, o)
  {
    var t := GiveBack(s, o);
    assert RetryOk(s.heap[o], s.h.writeFailures);
    forall n, k | Cached(t, n, k) ensures CachedOk(t, n, k) { assert Cached(s, n, k) && CachedOk(s, n, k); }
    forall n, k | Cached(t, n, k) && t.chains[n].cache[k] != o ensures WaitingOk(t, n, k) {
      assert Cached(s, n, k) && WaitingOk(s, n, k);
    }
    forall i | i in t.flights ensures InFlightOk(t, i) { assert InFlightOk(s, i); }
  }

  lemma ShelveWellFormed<O>(s: State<O>, o: O, src: string)
    requires CacheOk(s) && FlightsOk(s) && StoresOk(s) && RetriesOk(s) && OthersWaitingOk(s, o)
    requires o in s.heap && src in s.chains && s.heap[o].e.msg.src == src
    requires !s.heap[o].e.isProcessing && s.heap[o].e.retry != 0 && s.heap[o].e.retry % 3 == 0
    requires s.heap[o].e.msg.Key() in s.h.known
    ensures WellFormed(Shelve(s, o, src))
  {
    var t := Shelve(s, o, src);
    assert RetryOk(s.heap[o], s.h.writeFailures);
    forall n, k | Cached(t, n, k) ensures CachedOk(t, n, k) && WaitingOk(t, n, k) {
      assert Cached(s, n, k) && CachedOk(s, n, k);
      assert s.chains[n].cache[k] != o ==> WaitingOk(s, n, k);
    }
    forall i | i in t.flights ensures InFlightOk(t, i) { assert InFlightOk(s, i); }
  }

  lemma LoseWriteWellFormed<O>(s: State<O>, o: O)
    requires CacheOk(s) && FlightsOk(s) && StoresOk(s) && RetriesOk(s) && OthersWaitingOk(s, o)
    requires o in s.heap
    ensures WellFormed(LoseWrite(s, o))
  {
    var t := LoseWrite(s, o);
    assert RetryOk(s.heap[o], s.h.writeFailures);
    forall n, k | Cached(t, n, k) ensures CachedOk(t, n, k) && WaitingOk(t, n, k) {
      assert Cached(s, n, k) && CachedOk(s, n, k);
      assert s.chains[n].cache[k] != o ==> WaitingOk(s, n, k);
    }
    forall i | i in t.flights ensures InFlightOk(t, i) { assert InFlightOk(s, i); }
  }

  lemma GiveBackWaits<O>(s: State<O>, o: O)
    requires o in s.heap && RetryOk(s.heap[o], s.h.writeFailures) && AllWaitingOk(s)
    requires s.heap[o].e.retry == 0 || s.heap[o].e.retry % 3 != 0
    ensures AllWaitingOk(GiveBack(s, o))
  {
    forall n, k | Cached(GiveBack(s, o), n, k) ensures WaitingOk(GiveBack(s, o), n, k) {
      assert Cached(s, n, k) && WaitingOk(s, n, k);
    }
  }

  lemma FailWellFormed<O>(s: State<O>, o: O, src: string, storeOk: bool)
    requires WellFormed(s) && o in s.heap && src in s.chains && s.heap[o].e.msg.src == src
    requires s.heap[o].e.msg.Key() in s.h.known
    ensures WellFormed(Fail(s, o, src, storeOk))
  {
    GiveBackKeeps(s, o);
    var g := GiveBack(s, o);
    var retry := s.heap[o].e.retry;
    if retry == 0 || retry % 3 != 0 {
      GiveBackWaits(s, o);
    } else if storeOk {
      ShelveWellFormed(g, o, src);
    } else {
      LoseWriteWellFormed(g, o);
    }
  }

  // ---------- every step keeps it ----------

  lemma {:induction false} NotStaleOnly(es: seq<Entry>)
    ensures forall e :: e in NotStale(es) <==> e in es && e.retry < 15
  {
    if es != [] {
      NotStaleOnly(es[1..]);
      assert es == [es[0]] + es[1..];
    }
  }

  /** What a flush puts in the cache comes from idle stored messages of that chain. */
  lemma FlushEnters<O>(s: State<O>, nid: string, listing: seq<Slot>)
    requires StoresOk(s) && IsListing(s.messages, nid, listing)
    ensures forall e :: e in Active(Entries(s.messages, listing)) ==>
              Enters(e, nid) && e.msg.Key() in s.h.known && SrcSlot(e.msg.Key()) in s.messages &&
              s.messages[SrcSlot(e.msg.Key())] == e
  {
    var es := Entries(s.messages, listing);
    NotStaleOnly(es);
    forall e | e in Active(es)
      ensures Enters(e, nid) && e.msg.Key() in s.h.known && SrcSlot(e.msg.Key()) in s.messages
      ensures s.messages[SrcSlot(e.msg.Key())] == e
    {
      assert e in NotStale(es);
      var i :| 0 <= i < |es| && es[i] == e;
      assert StoredOk(listing[i], s.messages[listing[i]], s.h.lostBefore + s.h.writeFailures);
    }
  }

  lemma FlushWellFormed<O>(s: State<O>, nid: string, listing: seq<Slot>, os: seq<O>)
    requires WellFormed(s) && Enabled(s, Flush(nid, listing, os))
    ensures WellFormed(Apply(s, Flush(nid, listing, os)))
  {
    FlushEnters(s, nid, listing);
    InsertAllWellFormed(s, nid, Active(Entries(s.messages, listing)), os);
  }

  lemma BlockWellFormed<O>(s: State<O>, nid: string, height: nat, msgs: seq<Message>, writeOk: bool)
    requires WellFormed(s) && Enabled(s, ProcessBlock(nid, height, msgs, writeOk))
    ensures WellFormed(ApplyBlock(s, nid, height, msgs, writeOk))
  {
    var t := ApplyBlock(s, nid, height, msgs, writeOk);
    forall n, k | Cached(t, n, k) ensures CachedOk(t, n, k) && WaitingOk(t, n, k) {
      assert Cached(s, n, k) && CachedOk(s, n, k) && WaitingOk(s, n, k);
    }
    forall i | i in t.flights ensures InFlightOk(t, i) { assert InFlightOk(s, i); }
    assert t.pending == s.pending + multiset(msgs);
  }

  lemma LaunchWellFormed<O>(s: State<O>, nid: string, k: MessageKey, fid: nat)
    requires WellFormed(s) && Cached(s, nid, k) && s.chains[nid].cache[k] in s.heap && fid !in s.flights
    requires !s.heap[s.chains[nid].cache[k]].e.isProcessing && s.heap[s.chains[nid].cache[k]].e.msg.dst in s.chains
    ensures WellFormed(Launch(s, nid, s.chains[nid].cache[k], fid))
  {
    var o := s.chains[nid].cache[k];
    var t := Launch(s, nid, o, fid);
    assert CachedOk(s, nid, k) && WaitingOk(s, nid, k) && RetryOk(s.heap[o], s.h.writeFailures);
    forall n, k' | Cached(t, n, k') ensures CachedOk(t, n, k') && WaitingOk(t, n, k') {
      assert Cached(s, n, k') && CachedOk(s, n, k') && WaitingOk(s, n, k');
    }
    forall i | i in t.flights ensures InFlightOk(t, i) { assert i != fid ==> InFlightOk(s, i); }
  }

  /** Attempts may end, waiting merges may go, tx objects may come and go, and history may grow. */
  lemma FrameWellFormed<O>(s: State<O>, t: State<O>)
    requires WellFormed(s) && t.chains == s.chains && t.heap == s.heap && t.messages == s.messages
    requires t.h.writeFailures == s.h.writeFailures && t.h.lostBefore == s.h.lostBefore && t.h.known == s.h.known
    requires t.pending <= s.pending
    requires forall i :: i in t.flights ==> i in s.flights && t.flights[i] == s.flights[i]
    requires forall sl :: sl in t.finality ==> DstSlot(t.finality[sl].key) == sl && t.finality[sl].key in s.h.known
    requires forall x :: x in t.scan.left ==> x.key.dst == t.scan.nid && x.key in s.h.known
    ensures WellFormed(t)
  {
    forall n, k | Cached(t, n, k) ensures CachedOk(t, n, k) && WaitingOk(t, n, k) {
      assert Cached(s, n, k) && CachedOk(s, n, k) && WaitingOk(s, n, k);
    }
    forall i | i in t.flights ensures InFlightOk(t, i) { assert InFlightOk(s, i); }
  }

  lemma ConfirmWellFormed<O>(s: State<O>, nid: string, k: MessageKey, deleteOk: bool)
    requires WellFormed(s) && nid in s.chains
    ensures WellFormed(Confirm(s, nid, k, deleteOk))
  {
    var s' := s.(h := s.h.(confirmed := s.h.confirmed + {k}));
    FrameWellFormed(s, s');
    ClearWellFormed(s', nid, k, deleteOk);
  }

  lemma WatchWellFormed<O>(s: State<O>, nid: string, t: TxObject, deleteOk: bool)
    requires WellFormed(s) && nid in s.chains && t.key in s.h.known
    ensures WellFormed(Watch(s, nid, t, deleteOk))
  {
    var s' := s.(finality := s.finality[DstSlot(t.key) := t]);
    FrameWellFormed(s, s');
    ClearWellFormed(s', nid, t.key, deleteOk);
  }

  lemma ProcessWellFormed<O>(s: State<O>, nid: string, k: MessageKey, willing: bool, received: Answer<bool>,
                             deleteOk: bool, fid: nat)
    requires WellFormed(s) && Enabled(s, Process(nid, k, willing, received, deleteOk, fid))
    ensures WellFormed(ApplyProcess(s, nid, k, willing, received, deleteOk, fid))
  {
    var e := s.heap[s.chains[nid].cache[k]].e;
    if e.msg.dst !in s.chains {
      var s' := s.(h := s.h.(unknownDst := s.h.unknownDst + {e.msg.Key()}));
      FrameWellFormed(s, s');
      ClearWellFormed(s', nid, e.msg.Key(), deleteOk);
    } else if e.isProcessing || !willing || received.Error? {
    } else if received.value {
      ConfirmWellFormed(s, nid, e.msg.Key(), deleteOk);
    } else {
      LaunchWellFormed(s, nid, k, fid);
    }
  }

  lemma SuccessWellFormed<O>(s: State<O>, fid: nat, txHash: string, txHeight: nat, writeOk: bool, deleteOk: bool)
    requires WellFormed(s) && CanLand(s, fid)
    ensures WellFormed(ApplySuccess(s, fid, txHash, txHeight, writeOk, deleteOk))
  {
    var f := s.flights[fid];
    var s' := Landed(s, fid);
    assert InFlightOk(s, fid);
    FrameWellFormed(s, s');
    if s.chains[f.dst].depth == 0 {
      ConfirmWellFormed(s', f.src, f.key, deleteOk);
    } else if f.key !in s.chains[f.src].cache || !writeOk {
      FrameWellFormed(s, ApplySuccess(s, fid, txHash, txHeight, writeOk, deleteOk));
    } else {
      var t := TxObject(f.key, s.heap[s.chains[f.src].cache[f.key]].e.msg.height, txHash, txHeight);
      WatchWellFormed(s', f.src, t, deleteOk);
    }
  }

  lemma HistoryWellFormed<O>(s: State<O>, h: History<O>)
    requires WellFormed(s) && h.writeFailures == s.h.writeFailures && h.lostBefore == s.h.lostBefore
    requires h.known == s.h.known
    ensures WellFormed(s.(h := h))
  {
    FrameWellFormed(s, s.(h := h));
  }

  lemma WithdrawWellFormed<O>(s: State<O>, t: TxObject)
    requires WellFormed(s)
    ensures WellFormed(Checked(s, t)) && WellFormed(Withdraw(Checked(s, t), t))
  {
    FrameWellFormed(s, Checked(s, t));
    FrameWellFormed(s, Withdraw(Checked(s, t), t));
  }

  lemma CheckWellFormed<O>(s: State<O>, t: TxObject, receipt: Answer<bool>, deleteOk: bool, generated: Option<Message>,
                           o: O)
    requires WellFormed(s) && Enabled(s, CheckTx(t, receipt, deleteOk, generated, o))
    ensures WellFormed(ApplyCheck(s, t, receipt, deleteOk, generated, o))
  {
    var s' := Withdraw(Checked(s, t), t);
    WithdrawWellFormed(s, t);
    if !IsFinal(s, t) || receipt.Error? || !deleteOk || (!receipt.value && t.key.src !in s.chains) {
    } else if receipt.value {
      HistoryWellFormed(s', s'.h.(confirmed := s'.h.confirmed + {t.key}));
    } else if generated.None? {
      HistoryWellFormed(s', s'.h.(notRegenerated := s'.h.notRegenerated + {t.key}));
    } else {
      InsertWellFormed(s', t.key.src, Fresh(generated.value), o);
    }
  }

  lemma MergeWellFormed<O>(s: State<O>, m: Message, o: O)
    requires WellFormed(s) && Enabled(s, Merge(m, o))
    ensures WellFormed(Apply(s, Merge(m, o)))
  {
    var s' := s.(pending := s.pending - multiset{m});
    FrameWellFormed(s, s');
    InsertWellFormed(s', m.src, Fresh(m), o);
  }

  lemma LandedWellFormed<O>(s: State<O>, fid: nat)
    requires WellFormed(s) && fid in s.flights
    ensures WellFormed(Landed(s, fid)) && InFlightOk(s, fid)
  {
    FrameWellFormed(s, Landed(s, fid));
  }

  lemma RouteErrorWellFormed<O>(s: State<O>, fid: nat, storeOk: bool)
    requires WellFormed(s) && CanLand(s, fid)
    ensures WellFormed(Apply(s, RouteError(fid, storeOk)))
  {
    LandedWellFormed(s, fid);
    FailWellFormed(Landed(s, fid), s.flights[fid].obj, s.flights[fid].src, storeOk);
  }

  lemma CallbackFailureWellFormed<O>(s: State<O>, fid: nat, storeOk: bool)
    requires WellFormed(s) && CanLand(s, fid)
    ensures WellFormed(Apply(s, CallbackFailure(fid, storeOk)))
  {
    var f := s.flights[fid];
    FrameWellFormed(s, Landed(s, fid));
    if f.key in s.chains[f.src].cache {
      assert Cached(s, f.src, f.key) && CachedOk(s, f.src, f.key) && InFlightOk(s, fid);
      FailWellFormed(Landed(s, fid), s.chains[f.src].cache[f.key], f.src, storeOk);
    }
  }

  /** An attempt in the air can end at any time, in each of its three ways. */
  lemma CanAlwaysLand<O>(s: State<O>, fid: nat)
    requires WellFormed(s) && fid in s.flights
    ensures CanLand(s, fid)
  {
    var f := s.flights[fid];
    assert InFlightOk(s, fid);
    if f.key in s.chains[f.src].cache { assert Cached(s, f.src, f.key) && CachedOk(s, f.src, f.key); }
  }

  lemma StepWellFormed<O>(s: State<O>, step: Step<O>)
    requires WellFormed(s) && Enabled(s, step)
    ensures WellFormed(Apply(s, step))
  {
    match step
    case ProcessBlock(nid, height, msgs, writeOk) => BlockWellFormed(s, nid, height, msgs, writeOk);
    case Merge(m, o) => MergeWellFormed(s, m, o);
    case Flush(nid, listing, os) => FlushWellFormed(s, nid, listing, os);
    case Process(nid, k, willing, received, deleteOk, fid) =>
      ProcessWellFormed(s, nid, k, willing, received, deleteOk, fid);
    case RouteError(fid, storeOk) => RouteErrorWellFormed(s, fid, storeOk);
    case CallbackFailure(fid, storeOk) => CallbackFailureWellFormed(s, fid, storeOk);
    case CallbackSuccess(fid, txHash, txHeight, writeOk, deleteOk) =>
      SuccessWellFormed(s, fid, txHash, txHeight, writeOk, deleteOk);
    case ScanTx(nid) => FrameWellFormed(s, ApplyScan(s, nid));
    case CheckTx(t, receipt, deleteOk, generated, o) => CheckWellFormed(s, t, receipt, deleteOk, generated, o);
  }

  /** Every reachable state is well formed. */
  lemma {:induction false} RunWellFormed<O>(s: State<O>, steps: seq<Step<O>>)
    requires WellFormed(s) && ValidRun(s, steps)
    ensures WellFormed(Exec(s, steps))
    decreases |steps|
  {
    if steps != [] {
      StepWellFormed(s, steps[0]);
      RunWellFormed(Apply(s, steps[0]), steps[1..]);
    }
  }
}
