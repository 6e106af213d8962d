/** What each step changes in the caches, the objects, the attempts and the stores, exactly: which answers
    take a message out of a cache or bring it in, and when it is stored, deleted and tried. */
module RelayEffects {
  import opened Types
  import opened RelaySpec
  import opened RelayFrames
  import opened RelayInvariants
  import opened RelayHeights
  import opened RelayFinality
  import opened RelayFlush
  import opened RelayLife
  import opened RelayAnswers

  /** The object has failed three more times. */
  ghost predicate RoundOver<O>(s: State<O>, o: O)
    requires o in s.heap
  {
    s.heap[o].e.retry in {3, 6, 9, 12, 15} || (s.heap[o].e.retry > 15 && s.heap[o].e.retry % 3 == 0)
  }

  /** The object that a failure is about: the dispatched one after an error of Route, and the one that is in
      the cache now after a failure of the callback. */
  ghost predicate FailsFor<O>(s: State<O>, step: Step<O>, o: O)
    requires Enabled(s, step)
  {
    match step
    case RouteError(fid, _) => s.flights[fid].obj == o
    case CallbackFailure(fid, _) =>
      var f := s.flights[fid];
      f.key in s.chains[f.src].cache && s.chains[f.src].cache[f.key] == o
    case _ => false
  }

  /** An attempt starts: the destination does not have the message. */
  ghost predicate Starts<O>(s: State<O>, step: Step<O>)
    requires Enabled(s, step)
  {
    step.Process? && Asked(s, step) && step.received == Reply(false)
  }

  /** The destination has the message, or is not there. */
  ghost predicate Settles<O>(s: State<O>, step: Step<O>)
    requires Enabled(s, step)
  {
    step.Process? && (Looked(s, step).msg.dst !in s.chains || (Asked(s, step) && step.received == Reply(true)))
  }

  /** An attempt has succeeded, and the callback is done with the message. */
  ghost predicate Succeeds<O>(s: State<O>, step: Step<O>)
    requires Enabled(s, step)
  {
    step.CallbackSuccess? &&
    var f := s.flights[step.fid];
    s.chains[f.dst].depth == 0 || (f.key in s.chains[f.src].cache && step.writeOk)
  }

  // ---------- the cache ----------

  ghost predicate Releases<O>(s: State<O>, step: Step<O>, n: string, k: MessageKey)
    requires Enabled(s, step)
  {
    match step
    case Process(nid, k', _, _, _, _) => nid == n && k' == k && Settles(s, step)
    case CallbackSuccess(fid, _, _, _, _) => s.flights[fid].src == n && s.flights[fid].key == k && Succeeds(s, step)
    case RouteError(fid, storeOk) => storeOk && EndsRound(s, s.flights[fid].obj, s.flights[fid].src, n, k)
    case CallbackFailure(fid, storeOk) =>
      var f := s.flights[fid];
      storeOk && f.key in s.chains[f.src].cache && EndsRound(s, s.chains[f.src].cache[f.key], f.src, n, k)
    case _ => false
  }

  ghost predicate EndsRound<O>(s: State<O>, o: O, src: string, n: string, k: MessageKey)
    requires o in s.heap
  {
    RoundOver(s, o) && src == n && s.heap[o].e.msg.Key() == k
  }

  ghost predicate Brings<O>(s: State<O>, step: Step<O>, n: string, k: MessageKey)
    requires Enabled(s, step)
  {
    match step
    case Merge(m, _) => n == m.src && m.Key() == k
    case Flush(nid, listing, _) =>
      n == nid && exists i :: 0 <= i < |listing| && FlushBrings(s, listing, i, k)
    case CheckTx(t, receipt, deleteOk, generated, _) =>
      n == k.src && t.key == k && Judged(s, step) && receipt == Reply(false) && deleteOk && k.src in s.chains &&
      generated.Some?
    case _ => false
  }

  /** The entry at this place of the listing has an attempt left, and at most ten such stand before it. */
  ghost predicate FlushBrings<O>(s: State<O>, listing: seq<Slot>, i: nat, k: MessageKey)
    requires i < |listing| && forall sl :: sl in listing ==> sl in s.messages
  {
    var es := Entries(s.messages, listing);
    es[i].msg.Key() == k && es[i].retry < 15 && Live(es[..i]) <= 10
  }

  ghost predicate SameCached<O>(s: State<O>, t: State<O>, n: string, k: MessageKey)
  {
    (Cached(t, n, k) <==> Cached(s, n, k)) && (Cached(s, n, k) ==> t.chains[n].cache[k] == s.chains[n].cache[k])
  }

  lemma ClearCache<O>(s: State<O>, nid: string, k': MessageKey, deleteOk: bool, n: string, k: MessageKey)
    requires nid in s.chains
    ensures var t := Clear(s, nid, k', deleteOk);
      if n == nid && k == k' then !Cached(t, n, k) else SameCached(s, t, n, k)
  {
  }

  lemma FailCache<O>(s: State<O>, o: O, src: string, storeOk: bool, n: string, k: MessageKey)
    requires o in s.heap && src in s.chains
    ensures var t := Fail(s, o, src, storeOk);
      if storeOk && EndsRound(s, o, src, n, k) then !Cached(t, n, k) else SameCached(s, t, n, k)
  {
  }

  lemma LaunchCache<O>(s: State<O>, nid: string, o: O, fid: nat, n: string, k: MessageKey)
    requires o in s.heap
    ensures SameCached(s, Launch(s, nid, o, fid), n, k)
  {
  }

  lemma ProcessCacheOf<O>(s: State<O>, nid: string, k': MessageKey, willing: bool, received: Answer<bool>,
                          deleteOk: bool, fid: nat, n: string, k: MessageKey)
    requires Cached(s, nid, k') && s.chains[nid].cache[k'] in s.heap
    ensures var e := s.heap[s.chains[nid].cache[k']].e;
      var t := ApplyProcess(s, nid, k', willing, received, deleteOk, fid);
      var settled := e.msg.dst !in s.chains || (!e.isProcessing && willing && received == Reply(true));
      if settled && n == nid && k == e.msg.Key() then !Cached(t, n, k) else SameCached(s, t, n, k)
  {
    var o := s.chains[nid].cache[k'];
    var key := s.heap[o].e.msg.Key();
    ClearCache(s.(h := s.h.(unknownDst := s.h.unknownDst + {key})), nid, key, deleteOk, n, k);
    ClearCache(s.(h := s.h.(confirmed := s.h.confirmed + {key})), nid, key, deleteOk, n, k);
    LaunchCache(s, nid, o, fid, n, k);
  }

  lemma ProcessCache<O>(s: State<O>, step: Step<O>, n: string, k: MessageKey)
    requires CacheOk(s) && Enabled(s, step) && step.Process?
    ensures if Releases(s, step, n, k) then !Cached(Apply(s, step), n, k) else SameCached(s, Apply(s, step), n, k)
  {
    var Process(nid, k', willing, received, deleteOk, fid) := step;
    assert CachedOk(s, nid, k');
    ProcessCacheOf(s, nid, k', willing, received, deleteOk, fid, n, k);
  }

  lemma SuccessCache<O>(s: State<O>, step: Step<O>, n: string, k: MessageKey)
    requires Enabled(s, step) && step.CallbackSuccess?
    ensures if Releases(s, step, n, k) then !Cached(Apply(s, step), n, k) else SameCached(s, Apply(s, step), n, k)
  {
    var CallbackSuccess(fid, txHash, txHeight, writeOk, deleteOk) := step;
    var f := s.flights[fid];
    var l := Landed(s, fid);
    ClearCache(l.(h := l.h.(confirmed := l.h.confirmed + {f.key})), f.src, f.key, deleteOk, n, k);
    if f.key in s.chains[f.src].cache {
      var t := TxObject(f.key, s.heap[s.chains[f.src].cache[f.key]].e.msg.height, txHash, txHeight);
      ClearCache(l.(finality := l.finality[DstSlot(t.key) := t]), f.src, t.key, deleteOk, n, k);
    }
  }

  lemma InsertCache<O>(s: State<O>, nid: string, e: Entry, o: O, n: string, k: MessageKey)
    requires nid in s.chains
    ensures var t := Insert(s, nid, e, o);
      if n == nid && k == e.msg.Key() then Holds(t, n, k, e) && t.chains[n].cache[k] == o else SameCached(s, t, n, k)
  {
  }

  lemma CheckCacheOf<O>(s: State<O>, x: TxObject, receipt: Answer<bool>, deleteOk: bool, generated: Option<Message>,
                        o: O, n: string, k: MessageKey)
    requires s.scan.nid in s.chains && (generated.Some? ==> generated.value.Key() == x.key)
    ensures var t := ApplyCheck(s, x, receipt, deleteOk, generated, o);
      var final := x.txHeight != 0 && (x.txHeight + s.chains[s.scan.nid].depth) % TWO64 <= s.scan.height;
      if final && receipt == Reply(false) && deleteOk && x.key.src in s.chains && generated.Some? &&
        n == x.key.src && k == x.key
      then Holds(t, n, k, Entry(generated.value, 0, false)) && t.chains[n].cache[k] == o
      else SameCached(s, t, n, k)
  {
    WithdrawFrame(s, x);
    if Deletes(s, x, receipt, deleteOk) && !receipt.value && generated.Some? {
      InsertCache(Withdraw(Checked(s, x), x), x.key.src, Fresh(generated.value), o, n, k);
    }
  }

  lemma CheckCache<O>(s: State<O>, step: Step<O>, n: string, k: MessageKey)
    requires Enabled(s, step) && step.CheckTx?
    ensures var t := Apply(s, step);
      if Brings(s, step, n, k)
      then Holds(t, n, k, Entry(step.generated.value, 0, false)) && t.chains[n].cache[k] == step.o
      else SameCached(s, t, n, k)
  {
    var CheckTx(x, receipt, deleteOk, generated, o) := step;
    CheckCacheOf(s, x, receipt, deleteOk, generated, o, n, k);
  }

  lemma MergeCache<O>(s: State<O>, step: Step<O>, n: string, k: MessageKey)
    requires Enabled(s, step) && step.Merge?
    ensures var t := Apply(s, step);
      if Brings(s, step, n, k) then Holds(t, n, k, Entry(step.m, 0, false)) && t.chains[n].cache[k] == step.o
      else SameCached(s, t, n, k)
  {
    InsertCache(s.(pending := s.pending - multiset{step.m}), step.m.src, Fresh(step.m), step.o, n, k);
  }

  lemma {:induction false} InsertAllCache<O>(s: State<O>, nid: string, es: seq<Entry>, os: seq<O>, n: string,
                                             k: MessageKey)
    requires nid in s.chains && |es| == |os| && (n != nid || forall e :: e in es ==> e.msg.Key() != k)
    ensures SameCached(s, InsertAll(s, nid, es, os), n, k)
    decreases |es|
  {
    if es != [] {
      assert es[0] in es;
      InsertCache(s, nid, es[0], os[0], n, k);
      InsertAllCache(Insert(s, nid, es[0], os[0]), nid, es[1..], os[1..], n, k);
    }
  }

  lemma FlushCache<O>(s: State<O>, nid: string, listing: seq<Slot>, os: seq<O>, n: string, k: MessageKey)
    requires WellFormed(s) && Enabled(s, Flush(nid, listing, os))
    ensures var t := Apply(s, Flush(nid, listing, os));
      if Brings(s, Flush(nid, listing, os), n, k) then Cached(t, n, k) && t.chains[n].cache[k] !in s.heap
      else SameCached(s, t, n, k)
  {
    var es := Entries(s.messages, listing);
    if Brings(s, Flush(nid, listing, os), n, k) {
      var i :| 0 <= i < |listing| && FlushBrings(s, listing, i, k);
      FlushCaches(s, nid, listing, os, i);
    } else {
      if n == nid {
        forall e | e in Active(es) ensures e.msg.Key() != k {
          NotStaleOnly(es);
          assert e in NotStale(es);
          var i :| 0 <= i < |es| && es[i] == e;
          EntriesDiffer(s, nid, listing);
          ActiveIff(es, i);
          assert !FlushBrings(s, listing, i, k);
        }
      }
      InsertAllCache(s, nid, Active(es), os, n, k);
    }
  }

  lemma FailureCache<O>(s: State<O>, step: Step<O>, n: string, k: MessageKey)
    requires Enabled(s, step) && (step.RouteError? || step.CallbackFailure?)
    ensures if Releases(s, step, n, k) then !Cached(Apply(s, step), n, k) else SameCached(s, Apply(s, step), n, k)
  {
    var f := s.flights[step.fid];
    if step.RouteError? {
      FailCache(Landed(s, step.fid), f.obj, f.src, step.storeOk, n, k);
    } else if f.key in s.chains[f.src].cache {
      FailCache(Landed(s, step.fid), s.chains[f.src].cache[f.key], f.src, step.storeOk, n, k);
    }
  }

  lemma BlockCache<O>(s: State<O>, step: Step<O>, n: string, k: MessageKey)
    requires Enabled(s, step) && (step.ProcessBlock? || step.ScanTx?)
    ensures SameCached(s, Apply(s, step), n, k)
  {
  }

  /** Exactly these answers take a message out of a cache, and exactly these steps bring one in, as a new
      object. Everything else leaves the object where it is. */
  lemma StepCache<O>(s: State<O>, step: Step<O>, n: string, k: MessageKey)
    requires WellFormed(s) && Enabled(s, step)
    ensures var t := Apply(s, step);
      if Releases(s, step, n, k) then !Cached(t, n, k)
      else if Brings(s, step, n, k) then Cached(t, n, k) && t.chains[n].cache[k] !in s.heap
      else SameCached(s, t, n, k)
  {
    match step
    case Process(_, _, _, _, _, _) => ProcessCache(s, step, n, k);
    case CallbackSuccess(_, _, _, _, _) => SuccessCache(s, step, n, k);
    case RouteError(_, _) => FailureCache(s, step, n, k);
    case CallbackFailure(_, _) => FailureCache(s, step, n, k);
    case CheckTx(_, _, _, _, _) => CheckCache(s, step, n, k);
    case Merge(_, _) => MergeCache(s, step, n, k);
    case Flush(nid, listing, os) => FlushCache(s, nid, listing, os, n, k);
    case ProcessBlock(_, _, _, _) => BlockCache(s, step, n, k);
    case ScanTx(_) => BlockCache(s, step, n, k);
  }

  // ---------- the message store ----------

  ghost predicate SameAt<O>(s: State<O>, t: State<O>, sl: Slot)
  {
    (sl in t.messages <==> sl in s.messages) && (sl in s.messages ==> t.messages[sl] == s.messages[sl])
  }

  ghost predicate PlaceOf(k: MessageKey, sl: Slot) { k.src == sl.nid && k.sn == sl.sn }

  /** The end of a round writes the message of this place. */
  ghost predicate Shelves<O>(s: State<O>, step: Step<O>, sl: Slot, o: O)
    requires Enabled(s, step)
  {
    (step.RouteError? || step.CallbackFailure?) && step.storeOk && o in s.heap && FailsFor(s, step, o) &&
    RoundOver(s, o) &&
    PlaceOf(s.heap[o].e.msg.Key(), sl)
  }

  ghost predicate Erases<O>(s: State<O>, step: Step<O>, sl: Slot)
    requires Enabled(s, step)
  {
    match step
    case Process(_, _, _, _, deleteOk, _) => deleteOk && Settles(s, step) && PlaceOf(Looked(s, step).msg.Key(), sl)
    case CallbackSuccess(fid, _, _, _, deleteOk) => deleteOk && Succeeds(s, step) && PlaceOf(s.flights[fid].key, sl)
    case _ => false
  }

  lemma ClearStore<O>(s: State<O>, nid: string, k: MessageKey, deleteOk: bool, sl: Slot)
    requires nid in s.chains
    ensures var t := Clear(s, nid, k, deleteOk);
      if deleteOk && PlaceOf(k, sl) then sl !in t.messages else SameAt(s, t, sl)
  {
  }

  lemma FailStore<O>(s: State<O>, o: O, src: string, storeOk: bool, sl: Slot)
    requires o in s.heap && src in s.chains
    ensures var t := Fail(s, o, src, storeOk); var e := s.heap[o].e;
      if storeOk && RoundOver(s, o) && PlaceOf(e.msg.Key(), sl)
      then sl in t.messages && t.messages[sl] == Entry(e.msg, e.retry, false)
      else SameAt(s, t, sl)
  {
  }

  lemma ProcessStore<O>(s: State<O>, nid: string, k: MessageKey, willing: bool, received: Answer<bool>, deleteOk: bool,
                        fid: nat, sl: Slot)
    requires Cached(s, nid, k) && s.chains[nid].cache[k] in s.heap
    ensures var e := s.heap[s.chains[nid].cache[k]].e;
      var t := ApplyProcess(s, nid, k, willing, received, deleteOk, fid);
      var settled := e.msg.dst !in s.chains || (!e.isProcessing && willing && received == Reply(true));
      if settled && deleteOk && PlaceOf(e.msg.Key(), sl) then sl !in t.messages else SameAt(s, t, sl)
  {
    var key := s.heap[s.chains[nid].cache[k]].e.msg.Key();
    ClearStore(s.(h := s.h.(unknownDst := s.h.unknownDst + {key})), nid, key, deleteOk, sl);
    ClearStore(s.(h := s.h.(confirmed := s.h.confirmed + {key})), nid, key, deleteOk, sl);
  }

  lemma SuccessStore<O>(s: State<O>, step: Step<O>, sl: Slot)
    requires Enabled(s, step) && step.CallbackSuccess?
    ensures if Erases(s, step, sl) then sl !in Apply(s, step).messages else SameAt(s, Apply(s, step), sl)
  {
    var CallbackSuccess(fid, txHash, txHeight, writeOk, deleteOk) := step;
    var f := s.flights[fid];
    var l := Landed(s, fid);
    ClearStore(l.(h := l.h.(confirmed := l.h.confirmed + {f.key})), f.src, f.key, deleteOk, sl);
    if f.key in s.chains[f.src].cache {
      var t := TxObject(f.key, s.heap[s.chains[f.src].cache[f.key]].e.msg.height, txHash, txHeight);
      ClearStore(l.(finality := l.finality[DstSlot(t.key) := t]), f.src, t.key, deleteOk, sl);
    }
  }

  /** Exactly the end of a round writes a message to the store, idle and with its retry count, and exactly a
      settled or sent message is deleted from it, by source and number. */
  lemma StepStore<O>(s: State<O>, step: Step<O>, sl: Slot)
    requires Enabled(s, step)
    ensures var t := Apply(s, step);
      && (forall o :: Shelves(s, step, sl, o) ==>
        sl in t.messages && t.messages[sl] == Entry(s.heap[o].e.msg, s.heap[o].e.retry, false))
      && (Erases(s, step, sl) ==> sl !in t.messages)
      && (Erases(s, step, sl) || SameAt(s, t, sl) || exists o :: Shelves(s, step, sl, o))
  {
    match step
    case Process(nid, k, willing, received, deleteOk, fid) =>
      ProcessStore(s, nid, k, willing, received, deleteOk, fid, sl);
    case CallbackSuccess(_, _, _, _, _) => SuccessStore(s, step, sl);
    case RouteError(_, _) => FailureStore(s, step, sl);
    case CallbackFailure(_, _) => FailureStore(s, step, sl);
    case Flush(nid, listing, os) => InsertAllFrame(s, nid, Active(Entries(s.messages, listing)), os);
    case CheckTx(x, receipt, deleteOk, generated, o) => CheckFrame(s, x, receipt, deleteOk, generated, o);
    case Merge(m, o) => InsertFrame(s.(pending := s.pending - multiset{m}), m.src, Fresh(m), o);
    case ProcessBlock(_, _, _, _) =>
    case ScanTx(_) =>
  }

  lemma FailureStore<O>(s: State<O>, step: Step<O>, sl: Slot)
    requires Enabled(s, step) && (step.RouteError? || step.CallbackFailure?)
    ensures var t := Apply(s, step);
      && (forall o :: Shelves(s, step, sl, o) ==>
        sl in t.messages && t.messages[sl] == Entry(s.heap[o].e.msg, s.heap[o].e.retry, false))
      && (SameAt(s, t, sl) || exists o :: Shelves(s, step, sl, o))
  {
    var f := s.flights[step.fid];
    if step.RouteError? {
      FailStore(Landed(s, step.fid), f.obj, f.src, step.storeOk, sl);
      if !SameAt(s, Apply(s, step), sl) { assert Shelves(s, step, sl, f.obj); }
    } else if f.key in s.chains[f.src].cache {
      var o := s.chains[f.src].cache[f.key];
      FailStore(Landed(s, step.fid), o, f.src, step.storeOk, sl);
      if !SameAt(s, Apply(s, step), sl) { assert Shelves(s, step, sl, o); }
    }
  }

  // ---------- attempts ----------

  ghost predicate SameEntry<O>(s: State<O>, t: State<O>, o: O)
    requires o in s.heap && o in t.heap
  {
    t.heap[o].e == s.heap[o].e
  }

  lemma FailObject<O>(s: State<O>, o: O, src: string, storeOk: bool, p: O)
    requires o in s.heap && src in s.chains && p in s.heap
    ensures var t := Fail(s, o, src, storeOk);
      && t.heap.Keys == s.heap.Keys && t.flights == s.flights
      && (if p == o then t.heap[o].e == Entry(s.heap[o].e.msg, s.heap[o].e.retry, false) else SameEntry(s, t, p))
  {
  }

  lemma ProcessAttempt<O>(s: State<O>, nid: string, k: MessageKey, willing: bool, received: Answer<bool>,
                          deleteOk: bool, fid: nat)
    requires Cached(s, nid, k) && s.chains[nid].cache[k] in s.heap
    ensures var o := s.chains[nid].cache[k]; var e := s.heap[o].e;
      var t := ApplyProcess(s, nid, k, willing, received, deleteOk, fid);
      var starts := e.msg.dst in s.chains && !e.isProcessing && willing && received == Reply(false);
      && t.heap.Keys == s.heap.Keys
      && (forall p :: p in s.heap && (p != o || !starts) ==> SameEntry(s, t, p))
      && (starts ==> t.heap[o].e == Entry(e.msg, e.retry + 1, true))
      && t.flights == if starts then s.flights[fid := Flight(o, e.msg.Key(), nid, e.msg.dst)] else s.flights
  {
  }

  lemma SuccessAttempt<O>(s: State<O>, fid: nat, txHash: string, txHeight: nat, writeOk: bool, deleteOk: bool)
    requires CanLand(s, fid)
    ensures ApplySuccess(s, fid, txHash, txHeight, writeOk, deleteOk).flights == s.flights - {fid}
  {
  }

  lemma {:induction false} InsertAllObjects<O>(s: State<O>, nid: string, es: seq<Entry>, os: seq<O>)
    requires nid in s.chains && |es| == |os| && forall i :: 0 <= i < |os| ==> os[i] !in s.heap
    requires forall i, j :: 0 <= i < j < |os| ==> os[i] != os[j]
    ensures var t := InsertAll(s, nid, es, os); forall p :: p in s.heap ==> p in t.heap && t.heap[p] == s.heap[p]
    decreases |es|
  {
    if es != [] { InsertAllObjects(Insert(s, nid, es[0], os[0]), nid, es[1..], os[1..]); }
  }

  /** An attempt starts exactly when the destination, asked about an idle message, does not have it. The start
      counts one retry; a failure makes the object idle again; and nothing else changes an object. */
  ghost predicate ObjectChanges<O>(s: State<O>, step: Step<O>, t: State<O>, o: O)
    requires Enabled(s, step) && o in s.heap
  {
    o in t.heap &&
    var e := s.heap[o].e;
    if Starts(s, step) && s.chains[step.nid].cache[step.k] == o then t.heap[o].e == Entry(e.msg, e.retry + 1, true)
    else if FailsFor(s, step, o) then t.heap[o].e == Entry(e.msg, e.retry, false)
    else t.heap[o].e == e
  }

  ghost predicate FlightsChange<O>(s: State<O>, step: Step<O>, t: State<O>)
    requires Enabled(s, step)
  {
    match step
    case Process(nid, k, _, _, _, fid) =>
      var e := Looked(s, step);
      t.flights == if Starts(s, step)
                   then s.flights[fid := Flight(s.chains[nid].cache[k], e.msg.Key(), nid, e.msg.dst)] else s.flights
    case RouteError(fid, _) => t.flights == s.flights - {fid}
    case CallbackFailure(fid, _) => t.flights == s.flights - {fid}
    case CallbackSuccess(fid, _, _, _, _) => t.flights == s.flights - {fid}
    case _ => t.flights == s.flights
  }

  lemma FailureObject<O>(s: State<O>, step: Step<O>, o: O)
    requires Enabled(s, step) && (step.RouteError? || step.CallbackFailure?) && o in s.heap
    ensures ObjectChanges(s, step, Apply(s, step), o) && FlightsChange(s, step, Apply(s, step))
  {
    var fid, f := step.fid, s.flights[step.fid];
    if step.RouteError? {
      FailObject(Landed(s, fid), f.obj, f.src, step.storeOk, o);
    } else if f.key in s.chains[f.src].cache {
      FailObject(Landed(s, fid), s.chains[f.src].cache[f.key], f.src, step.storeOk, o);
    }
  }

  lemma ProcessObject<O>(s: State<O>, step: Step<O>, o: O)
    requires Enabled(s, step) && step.Process? && o in s.heap
    ensures ObjectChanges(s, step, Apply(s, step), o) && FlightsChange(s, step, Apply(s, step))
  {
    var Process(nid, k, willing, received, deleteOk, fid) := step;
    ProcessAttempt(s, nid, k, willing, received, deleteOk, fid);
  }

  lemma StepAttempts<O>(s: State<O>, step: Step<O>, o: O)
    requires Enabled(s, step) && o in s.heap
    ensures ObjectChanges(s, step, Apply(s, step), o) && FlightsChange(s, step, Apply(s, step))
  {
    match step
    case Process(_, _, _, _, _, _) => ProcessObject(s, step, o);
    case RouteError(_, _) => FailureObject(s, step, o);
    case CallbackFailure(_, _) => FailureObject(s, step, o);
    case CallbackSuccess(fid, txHash, txHeight, writeOk, deleteOk) =>
      SuccessAttempt(s, fid, txHash, txHeight, writeOk, deleteOk);
      SuccessFrame(s, fid, txHash, txHeight, writeOk, deleteOk);
    case Flush(nid, listing, os) =>
      InsertAllFrame(s, nid, Active(Entries(s.messages, listing)), os);
      InsertAllObjects(s, nid, Active(Entries(s.messages, listing)), os);
    case Merge(m, p) => InsertFrame(s.(pending := s.pending - multiset{m}), m.src, Fresh(m), p);
    case CheckTx(x, receipt, deleteOk, generated, p) =>
      CheckFrame(s, x, receipt, deleteOk, generated, p);
      CheckHeap(s, x, receipt, deleteOk, generated, p);
    case ProcessBlock(_, _, _, _) =>
    case ScanTx(_) =>
  }

  // ---------- blocks and tx objects ----------

  predicate IsKeyOf(k: MessageKey, m: Message)
  {
    k.sn == m.sn && k.src == m.src && k.dst == m.dst && k.eventType == m.eventType
  }

  /** What a block changes: the heights of its chain and, when it has messages or lies more than ten above the
      saved height, the saved height, in the block store too if the write succeeds; and each of its messages
      is known, and waits to be merged as often as the block has it. */
  lemma BlockEffect<O>(s: State<O>, nid: string, height: nat, msgs: seq<Message>, writeOk: bool, k: MessageKey,
                       m: Message)
    requires Enabled(s, ProcessBlock(nid, height, msgs, writeOk))
    ensures var t := Apply(s, ProcessBlock(nid, height, msgs, writeOk)); var c := s.chains[nid];
      var save := |msgs| > 0 || (height - c.lastSaved) % TWO64 > 10;
      && t.chains == s.chains[nid := Chain(c.depth, height, if save then height else c.lastSaved, c.cache)]
      && t.blocks == (if save && writeOk then s.blocks[nid := height] else s.blocks)
      && (k in t.h.known <==> k in s.h.known || exists i :: 0 <= i < |msgs| && IsKeyOf(k, msgs[i]))
      && t.pending[m] == s.pending[m] + multiset(msgs)[m]
  {
    var t := ApplyBlock(s, nid, height, msgs, writeOk);
    if k in t.h.known && k !in s.h.known {
      var m' :| m' in msgs && m'.Key() == k;
      var i :| 0 <= i < |msgs| && msgs[i] == m';
      assert IsKeyOf(k, msgs[i]);
    }
    if i :| 0 <= i < |msgs| && IsKeyOf(k, msgs[i]) { assert msgs[i] in msgs && msgs[i].Key() == k; }
  }

  /** A check retires a tx object exactly when the scanned one, for this destination and number, is judged,
      the delete works, and the receipt is good or the source chain is configured. */
  lemma RetiresWhen<O>(s: State<O>, step: Step<O>, sl: Slot)
    requires Enabled(s, step)
    ensures Retires(s, step, sl) <==>
      step.CheckTx? && step.t.key.dst == sl.nid && step.t.key.sn == sl.sn && Judged(s, step) && step.deleteOk &&
      (step.receipt == Reply(true) || step.t.key.src in s.chains)
  {
  }
}
