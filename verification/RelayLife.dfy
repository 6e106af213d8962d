/** The life of one message: how many attempts it can get, and when it is given up for good. */
module RelayLife {
  import opened Types
  import opened RelaySpec
  import opened RelayFrames
  import opened RelayInvariants
  import opened RelayNoLoss
  import opened RelayFlight
  import opened RelayFinality

  /** Nothing about message `k` differs between the two states. */
  ghost predicate SameFor<O>(s: State<O>, t: State<O>, k: MessageKey)
  {
    && (Cached(t, k.src, k) <==> Cached(s, k.src, k))
    && (Cached(s, k.src, k) ==> SameObject(s, t, k))
    && (SrcSlot(k) in t.messages <==> SrcSlot(k) in s.messages)
    && (SrcSlot(k) in s.messages ==> t.messages[SrcSlot(k)] == s.messages[SrcSlot(k)])
    && (forall i :: FlightOf(s, i, k) <==> FlightOf(t, i, k))
    && (forall i :: FlightOf(s, i, k) ==> t.flights[i] == s.flights[i])
  }

  ghost predicate FlightOf<O>(s: State<O>, i: nat, k: MessageKey) { i in s.flights && s.flights[i].key == k }

  ghost predicate SameObject<O>(s: State<O>, t: State<O>, k: MessageKey)
    requires Cached(s, k.src, k) && Cached(t, k.src, k)
  {
    var o := s.chains[k.src].cache[k];
    t.chains[k.src].cache[k] == o && o in s.heap && o in t.heap && t.heap[o] == s.heap[o]
  }

  /** The step is about message `k`. */
  ghost predicate Concerns<O>(s: State<O>, step: Step<O>, k: MessageKey)
    requires Enabled(s, step)
  {
    match step
    case ProcessBlock(_, _, msgs, _) => exists m :: m in msgs && m.Key() == k
    case Merge(m, _) => m.Key() == k
    case Flush(_, _, _) => k in InsertedKeys(s, step)
    case Process(_, k', _, _, _, _) => k' == k
    case RouteError(fid, _) => s.flights[fid].key == k
    case CallbackFailure(fid, _) => s.flights[fid].key == k
    case CallbackSuccess(fid, _, _, _, _) => s.flights[fid].key == k
    case ScanTx(_) => false
    case CheckTx(t, _, _, _, _) => t.key == k
  }

  lemma {:induction false} InsertAllOthers<O>(s: State<O>, nid: string, es: seq<Entry>, os: seq<O>, k: MessageKey)
    requires nid in s.chains && |es| == |os| && (Cached(s, k.src, k) ==> s.chains[k.src].cache[k] in s.heap)
    requires forall i :: 0 <= i < |os| ==> os[i] !in s.heap
    requires forall i, j :: 0 <= i < j < |os| ==> os[i] != os[j]
    requires forall e :: e in es ==> e.msg.Key() != k
    ensures SameFor(s, InsertAll(s, nid, es, os), k)
    decreases |es|
  {
    if es != [] {
      assert es[0] in es;
      var t := Insert(s, nid, es[0], os[0]);
      InsertAllOthers(t, nid, es[1..], os[1..], k);
    }
  }

  lemma ClearOthers<O>(s: State<O>, nid: string, k': MessageKey, deleteOk: bool, k: MessageKey)
    requires nid in s.chains && k != k' && SrcSlot(k) != SrcSlot(k')
    requires Cached(s, k.src, k) ==> s.chains[k.src].cache[k] in s.heap
    ensures SameFor(s, Clear(s, nid, k', deleteOk), k)
  {
  }

  /** The pending messages, the tx objects and the history do not matter. */
  lemma QuietOthers<O>(s: State<O>, t: State<O>, k: MessageKey)
    requires t.chains == s.chains && t.heap == s.heap && t.messages == s.messages && t.flights == s.flights
    requires Cached(s, k.src, k) ==> s.chains[k.src].cache[k] in s.heap
    ensures SameFor(s, t, k)
  {
  }

  lemma CellOthers<O>(s: State<O>, t: State<O>, o: O, k: MessageKey)
    requires t.chains == s.chains && t.messages == s.messages && t.flights == s.flights && o in s.heap && o in t.heap
    requires t.heap == s.heap[o := t.heap[o]] && s.heap[o].e.msg.Key() != k
    requires Cached(s, k.src, k) ==> CachedOk(s, k.src, k)
    ensures SameFor(s, t, k)
  {
  }

  lemma ShelveOthers<O>(s: State<O>, o: O, src: string, k: MessageKey)
    requires o in s.heap && src in s.chains && (Cached(s, k.src, k) ==> s.chains[k.src].cache[k] in s.heap)
    requires s.heap[o].e.msg.Key() != k && SrcSlot(s.heap[o].e.msg.Key()) != SrcSlot(k)
    ensures SameFor(s, Shelve(s, o, src), k)
  {
  }

  lemma FailOthers<O>(s: State<O>, o: O, src: string, storeOk: bool, k: MessageKey)
    requires o in s.heap && src in s.chains && (Cached(s, k.src, k) ==> CachedOk(s, k.src, k))
    requires s.heap[o].e.msg.Key() != k && SrcSlot(s.heap[o].e.msg.Key()) != SrcSlot(k)
    ensures SameFor(s, Fail(s, o, src, storeOk), k)
  {
    var g := GiveBack(s, o);
    CellOthers(s, g, o, k);
    CellOthers(s, LoseWrite(g, o), o, k);
    ShelveOthers(g, o, src, k);
    SameForTransitive(s, g, Shelve(g, o, src), k);
  }

  lemma LandedOthers<O>(s: State<O>, fid: nat, k: MessageKey)
    requires fid in s.flights && s.flights[fid].key != k && (Cached(s, k.src, k) ==> s.chains[k.src].cache[k] in s.heap)
    ensures SameFor(s, Landed(s, fid), k)
  {
  }

  lemma SameForTransitive<O>(s: State<O>, t: State<O>, u: State<O>, k: MessageKey)
    requires SameFor(s, t, k) && SameFor(t, u, k)
    ensures SameFor(s, u, k)
  {
  }

  lemma ConfirmOthers<O>(s: State<O>, nid: string, k': MessageKey, deleteOk: bool, k: MessageKey)
    requires nid in s.chains && k != k' && SrcSlot(k) != SrcSlot(k')
    requires Cached(s, k.src, k) ==> s.chains[k.src].cache[k] in s.heap
    ensures SameFor(s, Confirm(s, nid, k', deleteOk), k)
  {
    var c := s.(h := s.h.(confirmed := s.h.confirmed + {k'}));
    QuietOthers(s, c, k);
    ClearOthers(c, nid, k', deleteOk, k);
    SameForTransitive(s, c, Clear(c, nid, k', deleteOk), k);
  }

  lemma LaunchOthers<O>(s: State<O>, nid: string, o: O, fid: nat, k: MessageKey)
    requires o in s.heap && fid !in s.flights && s.heap[o].e.msg.Key() != k
    requires Cached(s, k.src, k) ==> CachedOk(s, k.src, k)
    ensures SameFor(s, Launch(s, nid, o, fid), k)
  {
  }

  lemma ProcessOthers<O>(s: State<O>, nid: string, k': MessageKey, willing: bool, received: Answer<bool>,
                         deleteOk: bool, fid: nat, k: MessageKey)
    requires CacheOk(s) && Numbered(s.h.known) && k in s.h.known && k != k'
    requires Enabled(s, Process(nid, k', willing, received, deleteOk, fid))
    ensures SameFor(s, ApplyProcess(s, nid, k', willing, received, deleteOk, fid), k)
  {
    assert CachedOk(s, nid, k');
    assert Cached(s, k.src, k) ==> CachedOk(s, k.src, k);
    var o := s.chains[nid].cache[k'];
    if s.heap[o].e.msg.dst !in s.chains {
      var c := s.(h := s.h.(unknownDst := s.h.unknownDst + {k'}));
      QuietOthers(s, c, k);
      ClearOthers(c, nid, k', deleteOk, k);
      SameForTransitive(s, c, Clear(c, nid, k', deleteOk), k);
    } else if s.heap[o].e.isProcessing || !willing || received.Error? {
      QuietOthers(s, s, k);
    } else if received.value {
      ConfirmOthers(s, nid, k', deleteOk, k);
    } else {
      LaunchOthers(s, nid, o, fid, k);
    }
  }

  lemma SuccessOthers<O>(s: State<O>, fid: nat, txHash: string, txHeight: nat, writeOk: bool, deleteOk: bool,
                         k: MessageKey)
    requires CacheOk(s) && FlightsOk(s) && Numbered(s.h.known) && k in s.h.known && CanLand(s, fid)
    requires s.flights[fid].key != k
    ensures SameFor(s, ApplySuccess(s, fid, txHash, txHeight, writeOk, deleteOk), k)
  {
    var f := s.flights[fid];
    var l := Landed(s, fid);
    assert InFlightOk(s, fid);
    assert Cached(s, k.src, k) ==> CachedOk(s, k.src, k);
    LandedOthers(s, fid, k);
    var t := ApplySuccess(s, fid, txHash, txHeight, writeOk, deleteOk);
    if s.chains[f.dst].depth == 0 {
      ConfirmOthers(l, f.src, f.key, deleteOk, k);
    } else if f.key !in s.chains[f.src].cache || !writeOk {
      QuietOthers(l, t, k);
    } else {
      var tx := TxObject(f.key, s.heap[s.chains[f.src].cache[f.key]].e.msg.height, txHash, txHeight);
      var c := l.(finality := l.finality[DstSlot(f.key) := tx]);
      QuietOthers(l, c, k);
      ClearOthers(c, f.src, f.key, deleteOk, k);
      SameForTransitive(l, c, Watch(l, f.src, tx, deleteOk), k);
    }
    SameForTransitive(s, l, t, k);
  }

  lemma InsertOthers<O>(s: State<O>, nid: string, e: Entry, o: O, k: MessageKey)
    requires nid in s.chains && o !in s.heap && (Cached(s, k.src, k) ==> s.chains[k.src].cache[k] in s.heap)
    requires e.msg.Key() != k
    ensures SameFor(s, Insert(s, nid, e, o), k)
  {
  }

  lemma CheckOthers<O>(s: State<O>, t: TxObject, receipt: Answer<bool>, deleteOk: bool, generated: Option<Message>,
                       o: O, k: MessageKey)
    requires Enabled(s, CheckTx(t, receipt, deleteOk, generated, o))
    requires Cached(s, k.src, k) ==> s.chains[k.src].cache[k] in s.heap
    requires t.key != k
    ensures SameFor(s, ApplyCheck(s, t, receipt, deleteOk, generated, o), k)
  {
    var s' := Withdraw(Checked(s, t), t);
    QuietOthers(s, s', k);
    if !Deletes(s, t, receipt, deleteOk) || receipt.value || generated.None? {
      QuietOthers(s, ApplyCheck(s, t, receipt, deleteOk, generated, o), k);
    } else {
      InsertOthers(s', t.key.src, Fresh(generated.value), o, k);
      SameForTransitive(s, s', Insert(s', t.key.src, Fresh(generated.value), o), k);
    }
  }

  lemma FailureOthers<O>(s: State<O>, fid: nat, storeOk: bool, k: MessageKey)
    requires CacheOk(s) && FlightsOk(s) && Numbered(s.h.known) && k in s.h.known && CanLand(s, fid)
    requires s.flights[fid].key != k
    ensures SameFor(s, Apply(s, RouteError(fid, storeOk)), k) && SameFor(s, Apply(s, CallbackFailure(fid, storeOk)), k)
  {
    var f := s.flights[fid];
    var l := Landed(s, fid);
    assert InFlightOk(s, fid);
    assert Cached(s, k.src, k) ==> CachedOk(s, k.src, k);
    LandedOthers(s, fid, k);
    FailOthers(l, f.obj, f.src, storeOk, k);
    SameForTransitive(s, l, Fail(l, f.obj, f.src, storeOk), k);
    if f.key in s.chains[f.src].cache {
      assert Cached(s, f.src, f.key) && CachedOk(s, f.src, f.key);
      var o := s.chains[f.src].cache[f.key];
      FailOthers(l, o, f.src, storeOk, k);
      SameForTransitive(s, l, Fail(l, o, f.src, storeOk), k);
    }
  }

  lemma FlushOthers<O>(s: State<O>, step: Step<O>, k: MessageKey)
    requires step.Flush? && Enabled(s, step) && k !in InsertedKeys(s, step)
    requires Cached(s, k.src, k) ==> s.chains[k.src].cache[k] in s.heap
    ensures SameFor(s, Apply(s, step), k)
  {
    var es := Active(Entries(s.messages, step.listing));
    forall e | e in es ensures e.msg.Key() != k { assert e.msg.Key() in InsertedKeys(s, step); }
    InsertAllOthers(s, step.nid, es, step.os, k);
  }

  lemma MergeOthers<O>(s: State<O>, m: Message, o: O, k: MessageKey)
    requires Enabled(s, Merge(m, o)) && m.Key() != k && (Cached(s, k.src, k) ==> s.chains[k.src].cache[k] in s.heap)
    ensures SameFor(s, Insert(s.(pending := s.pending - multiset{m}), m.src, Fresh(m), o), k)
  {
  }

  lemma BlockOthers<O>(s: State<O>, nid: string, height: nat, msgs: seq<Message>, writeOk: bool, k: MessageKey)
    requires Enabled(s, ProcessBlock(nid, height, msgs, writeOk))
    requires Cached(s, k.src, k) ==> s.chains[k.src].cache[k] in s.heap
    ensures SameFor(s, ApplyBlock(s, nid, height, msgs, writeOk), k)
  {
  }

  /** A step that is not about a message changes nothing about it. */
  lemma StepOthers<O>(s: State<O>, step: Step<O>, k: MessageKey)
    requires CacheOk(s) && FlightsOk(s) && Numbered(s.h.known) && k in s.h.known && Enabled(s, step)
    requires !Concerns(s, step, k)
    ensures SameFor(s, Apply(s, step), k)
  {
    assert Cached(s, k.src, k) ==> CachedOk(s, k.src, k);
    match step
    case ProcessBlock(nid, height, msgs, writeOk) => BlockOthers(s, nid, height, msgs, writeOk, k);
    case Merge(m, o) => MergeOthers(s, m, o, k);
    case Flush(_, _, _) => FlushOthers(s, step, k);
    case Process(nid, k', willing, received, deleteOk, fid) =>
      ProcessOthers(s, nid, k', willing, received, deleteOk, fid, k);
    case RouteError(fid, storeOk) => FailureOthers(s, fid, storeOk, k);
    case CallbackFailure(fid, storeOk) => FailureOthers(s, fid, storeOk, k);
    case CallbackSuccess(fid, txHash, txHeight, writeOk, deleteOk) =>
      SuccessOthers(s, fid, txHash, txHeight, writeOk, deleteOk, k);
    case ScanTx(nid) => QuietOthers(s, ApplyScan(s, nid), k);
    case CheckTx(t, receipt, deleteOk, generated, o) => CheckOthers(s, t, receipt, deleteOk, generated, o, k);
  }

  lemma PendingOthers<O>(s: State<O>, step: Step<O>, k: MessageKey)
    requires Enabled(s, step) && !Concerns(s, step, k)
    ensures forall m: Message :: m.Key() == k ==> Apply(s, step).pending[m] == s.pending[m]
  {
    StepFrame(s, step);
    if step.ProcessBlock? {
      forall m: Message | m.Key() == k ensures multiset(step.msgs)[m] == 0 {
        assert m !in step.msgs;
        assert m !in multiset(step.msgs);
      }
    }
  }

  // ---------- stale messages ----------

  ghost predicate Delivers<O>(step: Step<O>, k: MessageKey)
  {
    step.ProcessBlock? && exists m :: m in step.msgs && m.Key() == k
  }

  /** The message is stored after its last round, and is nowhere else. */
  ghost predicate Dead<O>(s: State<O>, k: MessageKey)
  {
    Stored(s, k) && s.messages[SrcSlot(k)].retry >= 15 && k in s.h.known &&
    !Cached(s, k.src, k) && !Flying(s, k) && !Awaiting(s, k) && !Watched(s, k) && Unscanned(s, k)
  }

  /** No scan waits to check a tx object of the message. */
  ghost predicate Unscanned<O>(s: State<O>, k: MessageKey) { forall x :: x in s.scan.left ==> x.key != k }

  lemma ActiveAreStored<O>(s: State<O>, nid: string, listing: seq<Slot>, k: MessageKey)
    requires StoresOk(s) && IsListing(s.messages, nid, listing)
    requires exists e :: e in Active(Entries(s.messages, listing)) && e.msg.Key() == k
    ensures k.src == nid && Stored(s, k) && s.messages[SrcSlot(k)].retry < 15
  {
    FlushEnters(s, nid, listing);
    var e :| e in Active(Entries(s.messages, listing)) && e.msg.Key() == k;
    NotStaleOnly(Entries(s.messages, listing));
    assert e in NotStale(Entries(s.messages, listing));
  }

  lemma DeadNotFlushed<O>(s: State<O>, step: Step<O>, k: MessageKey)
    requires StoresOk(s) && Dead(s, k) && Enabled(s, step) && step.Flush?
    ensures !Concerns(s, step, k)
  {
    if k in InsertedKeys(s, step) { ActiveAreStored(s, step.nid, step.listing, k); }
  }

  lemma DeadNotTried<O>(s: State<O>, step: Step<O>, k: MessageKey)
    requires CacheOk(s) && Dead(s, k) && Enabled(s, step) && step.Process?
    ensures !Concerns(s, step, k)
  {
    assert CachedOk(s, step.nid, step.k);
  }

  /** Nothing but a new delivery can touch it. */
  lemma DeadUntouched<O>(s: State<O>, step: Step<O>, k: MessageKey)
    requires CacheOk(s) && StoresOk(s) && Dead(s, k) && Enabled(s, step)
    ensures Concerns(s, step, k) <==> Delivers(step, k)
  {
    if step.Flush? { DeadNotFlushed(s, step, k); }
    if step.Process? { DeadNotTried(s, step, k); }
  }

  lemma StepDead<O>(s: State<O>, step: Step<O>, k: MessageKey)
    requires WellFormed(s) && Numbered(s.h.known) && Dead(s, k) && Enabled(s, step) && !Delivers(step, k)
    ensures Dead(Apply(s, step), k)
  {
    var t := Apply(s, step);
    DeadUntouched(s, step, k);
    StepOthers(s, step, k);
    PendingOthers(s, step, k);
    StepFrame(s, step);
    assert !Awaiting(t, k) by { assert forall m :: m in t.pending && m.Key() == k ==> m in s.pending; }
    assert !Flying(t, k) by { assert forall i :: FlightOf(t, i, k) ==> FlightOf(s, i, k); }
    StepUnwatched(s, step, k);
    StepUnscanned(s, step, k);
  }

  lemma StepUnwatched<O>(s: State<O>, step: Step<O>, k: MessageKey)
    requires WellFormed(s) && Enabled(s, step) && !Watched(s, k) && !Concerns(s, step, k)
    ensures !Watched(Apply(s, step), k)
  {
    StepFrame(s, step);
    StepFinality(s, step, DstSlot(k));
  }

  lemma StepUnscanned<O>(s: State<O>, step: Step<O>, k: MessageKey)
    requires StoresOk(s) && Enabled(s, step) && !Watched(s, k) && Unscanned(s, k)
    ensures Unscanned(Apply(s, step), k)
  {
    if step.CheckTx? {
      var CheckTx(x, receipt, deleteOk, generated, o) := step;
      CheckFinalityStore(s, x, receipt, deleteOk, generated, o);
    } else {
      StepFrame(s, step);
    }
  }

  /** A message stored after its last round is never tried again, in any run that does not deliver
      it anew: it stays in the store, and no flush brings it back. */
  lemma {:induction false} DeadForever<O>(s: State<O>, steps: seq<Step<O>>, k: MessageKey)
    requires WellFormed(s) && ValidRun(s, steps) && Dead(s, k) && Numbered(Exec(s, steps).h.known)
    requires forall step :: step in steps ==> !Delivers(step, k)
    ensures Dead(Exec(s, steps), k)
    decreases |steps|
  {
    if steps != [] {
      KnownGrows(s, steps);
      StepDead(s, steps[0], k);
      StepWellFormed(s, steps[0]);
      DeadForever(Apply(s, steps[0]), steps[1..], k);
    }
  }

  // ---------- fifteen attempts ----------

  /** The step starts an attempt for the message. */
  ghost predicate Tries<O>(s: State<O>, step: Step<O>, k: MessageKey)
    requires Enabled(s, step)
  {
    step.Process? && step.k == k &&
    var e := s.heap[s.chains[step.nid].cache[k]].e;
    e.msg.dst in s.chains && !e.isProcessing && step.willing && step.received == Reply(false)
  }

  ghost function CountTries<O>(s: State<O>, steps: seq<Step<O>>, k: MessageKey): nat
    requires ValidRun(s, steps)
    decreases |steps|
  {
    if steps == [] then 0
    else (if Tries(s, steps[0], k) then 1 else 0) + CountTries(Apply(s, steps[0]), steps[1..], k)
  }

  /** The message is not delivered again and not regenerated, its writes and deletes in the message
      store succeed, and flush leaves it alone while it is in the cache or in the air. */
  ghost predicate Orderly<O>(s: State<O>, step: Step<O>, k: MessageKey)
    requires Enabled(s, step)
  {
    !Concerns(s, step, k) ||
    match step
    case ProcessBlock(_, _, _, _) => false
    case Merge(_, _) => true
    case Flush(_, _, _) => !Cached(s, k.src, k) && !Flying(s, k)
    case Process(_, _, _, _, deleteOk, _) => deleteOk
    case RouteError(_, storeOk) => storeOk
    case CallbackFailure(_, storeOk) => storeOk
    case CallbackSuccess(_, _, _, _, deleteOk) => deleteOk
    case ScanTx(_) => true
    case CheckTx(_, _, _, _, _) => k !in InsertedKeys(s, step)
  }

  ghost predicate OrderlyRun<O>(s: State<O>, steps: seq<Step<O>>, k: MessageKey)
    requires ValidRun(s, steps)
    decreases |steps|
  {
    steps == [] || (Orderly(s, steps[0], k) && OrderlyRun(Apply(s, steps[0]), steps[1..], k))
  }

  /** The message has been tried `c` times, and whatever holds it knows that. */
  ghost predicate Life<O>(s: State<O>, k: MessageKey, c: nat)
  {
    && c <= 15 && k in s.h.known
    && (forall i, j :: FlightOf(s, i, k) && FlightOf(s, j, k) ==> i == j)
    && (forall i :: FlightOf(s, i, k) ==> InHand(s, i, k))
    && (Cached(s, k.src, k) ==> Counts(s, k, c))
    && (!Cached(s, k.src, k) && SrcSlot(k) in s.messages ==> s.messages[SrcSlot(k)].retry == c)
    && (Awaiting(s, k) ==> c == 0 && !Cached(s, k.src, k) && SrcSlot(k) !in s.messages && AwaitedOnce(s, k))
  }

  ghost predicate Counts<O>(s: State<O>, k: MessageKey, c: nat)
    requires Cached(s, k.src, k)
  {
    var o := s.chains[k.src].cache[k];
    o in s.heap && s.heap[o].e.retry == c && s.heap[o].failedWrites == 0
  }

  /** The attempt is for the object in the cache. */
  ghost predicate InHand<O>(s: State<O>, i: nat, k: MessageKey)
    requires FlightOf(s, i, k)
  {
    Cached(s, k.src, k) && s.chains[k.src].cache[k] == s.flights[i].obj && s.flights[i].obj in s.heap &&
    s.heap[s.flights[i].obj].e.isProcessing
  }

  ghost predicate AwaitedOnce<O>(s: State<O>, k: MessageKey)
  {
    forall m, m' :: m in s.pending && m' in s.pending && m.Key() == k && m'.Key() == k ==> m == m' && s.pending[m] == 1
  }

  lemma OthersLife<O>(s: State<O>, step: Step<O>, k: MessageKey, c: nat)
    requires WellFormed(s) && Numbered(s.h.known) && Life(s, k, c) && Enabled(s, step) && !Concerns(s, step, k)
    ensures Life(Apply(s, step), k, c)
  {
    var t := Apply(s, step);
    StepOthers(s, step, k);
    PendingOthers(s, step, k);
    StepFrame(s, step);
    OthersLifeFrame(s, t, k, c);
  }

  lemma OthersLifeFrame<O>(s: State<O>, t: State<O>, k: MessageKey, c: nat)
    requires Life(s, k, c) && SameFor(s, t, k) && k in t.h.known
    requires forall m: Message :: m.Key() == k ==> t.pending[m] == s.pending[m]
    ensures Life(t, k, c)
  {
    forall i | FlightOf(t, i, k) ensures InHand(t, i, k) { assert FlightOf(s, i, k) && InHand(s, i, k); }
    if Awaiting(t, k) {
      var m :| m in t.pending && m.Key() == k;
      assert m in s.pending;
    }
  }

  lemma MergeLife<O>(s: State<O>, m: Message, o: O, c: nat)
    requires CacheOk(s) && Life(s, m.Key(), c) && Enabled(s, Merge(m, o))
    ensures Life(Insert(s.(pending := s.pending - multiset{m}), m.src, Fresh(m), o), m.Key(), c)
  {
    var k := m.Key();
    assert Awaiting(s, k);
    var t := Insert(s.(pending := s.pending - multiset{m}), m.src, Fresh(m), o);
    assert forall i :: FlightOf(t, i, k) ==> FlightOf(s, i, k);
    assert !Awaiting(t, k) by { assert forall m' :: m' in t.pending && m'.Key() == k ==> m' == m && s.pending[m] == 1; }
  }

  /** The object that a flush puts in the cache for a message has the retry count of the store. */
  lemma {:induction false} InsertAllAt<O>(s: State<O>, nid: string, es: seq<Entry>, os: seq<O>, k: MessageKey, e: Entry)
    requires nid in s.chains && |es| == |os| && (forall e' :: e' in es && e'.msg.Key() == k ==> e' == e)
    requires forall i :: 0 <= i < |os| ==> os[i] !in s.heap
    requires forall i, j :: 0 <= i < j < |os| ==> os[i] != os[j]
    requires Holds(s, nid, k, e) || exists e' :: e' in es && e'.msg.Key() == k
    ensures Holds(InsertAll(s, nid, es, os), nid, k, e)
    decreases |es|
  {
    if es != [] {
      assert es[0] in es;
      var t := Insert(s, nid, es[0], os[0]);
      InsertAllAt(t, nid, es[1..], os[1..], k, e);
    }
  }

  ghost predicate Holds<O>(s: State<O>, n: string, k: MessageKey, e: Entry)
  {
    Cached(s, n, k) && s.chains[n].cache[k] in s.heap && s.heap[s.chains[n].cache[k]] == Cell(e, e.retry, 0)
  }

  lemma FlushLife<O>(s: State<O>, step: Step<O>, k: MessageKey, c: nat)
    requires WellFormed(s) && Life(s, k, c) && step.Flush? && Enabled(s, step)
    requires k in InsertedKeys(s, step) && !Cached(s, k.src, k) && !Flying(s, k)
    ensures Life(Apply(s, step), k, c)
  {
    var Flush(nid, listing, os) := step;
    var es := Active(Entries(s.messages, listing));
    ActiveAreStored(s, nid, listing, k);
    FlushEnters(s, nid, listing);
    var e := s.messages[SrcSlot(k)];
    assert forall e' :: e' in es && e'.msg.Key() == k ==> e' == e;
    InsertAllAt(s, nid, es, os, k, e);
    InsertAllFrame(s, nid, es, os);
    var t := InsertAll(s, nid, es, os);
    assert forall i :: FlightOf(t, i, k) ==> FlightOf(s, i, k);
    assert Awaiting(t, k) <==> Awaiting(s, k);
  }

  ghost predicate NoFlight<O>(s: State<O>, k: MessageKey) { forall i :: !FlightOf(s, i, k) }

  /** An attempt in hand is the only one. */
  lemma LandedLast<O>(s: State<O>, fid: nat, k: MessageKey, c: nat)
    requires Life(s, k, c) && FlightOf(s, fid, k)
    ensures NoFlight(Landed(s, fid), k) && !Awaiting(s, k) && !Awaiting(Landed(s, fid), k) && InHand(s, fid, k)
  {
    var l := Landed(s, fid);
    assert InHand(s, fid, k);
    forall i ensures !FlightOf(l, i, k) { assert FlightOf(l, i, k) ==> FlightOf(s, i, k) && i != fid; }
    assert !Awaiting(s, k);
    assert Awaiting(l, k) <==> Awaiting(s, k);
  }

  lemma ClearLife<O>(s: State<O>, k: MessageKey, c: nat)
    requires k.src in s.chains && c <= 15 && k in s.h.known && !Awaiting(s, k) && NoFlight(s, k)
    ensures Life(Clear(s, k.src, k, true), k, c)
  {
    var t := Clear(s, k.src, k, true);
    assert forall i :: FlightOf(t, i, k) ==> FlightOf(s, i, k);
    assert Awaiting(t, k) <==> Awaiting(s, k);
  }

  lemma LaunchLife<O>(s: State<O>, k: MessageKey, fid: nat, c: nat)
    requires WellFormed(s) && Life(s, k, c) && Idle(s, k.src, k) && fid !in s.flights
    ensures Life(Launch(s, k.src, s.chains[k.src].cache[k], fid), k, c + 1)
  {
    var o := s.chains[k.src].cache[k];
    assert CachedOk(s, k.src, k) && WaitingOk(s, k.src, k) && RetryOk(s.heap[o], s.h.writeFailures);
    assert c < 15;
    var t := Launch(s, k.src, o, fid);
    assert forall i :: FlightOf(s, i, k) ==> InHand(s, i, k);
    assert forall i :: FlightOf(t, i, k) ==> i == fid || FlightOf(s, i, k);
    assert Awaiting(t, k) <==> Awaiting(s, k);
  }

  lemma ProcessLife<O>(s: State<O>, step: Step<O>, k: MessageKey, c: nat)
    requires WellFormed(s) && Life(s, k, c) && step.Process? && Enabled(s, step) && step.k == k && step.deleteOk
    ensures Life(Apply(s, step), k, if Tries(s, step, k) then c + 1 else c)
  {
    var o := s.chains[step.nid].cache[k];
    assert CachedOk(s, step.nid, k);
    if s.heap[o].e.msg.dst !in s.chains {
      UnknownDoesNotFly(s, k);
      assert NoFlight(s, k);
      var d := s.(h := s.h.(unknownDst := s.h.unknownDst + {k}));
      assert Awaiting(d, k) <==> Awaiting(s, k);
      ClearLife(d, k, c);
    } else if s.heap[o].e.isProcessing || !step.willing || step.received.Error? {
    } else if step.received.value {
      var d := s.(h := s.h.(confirmed := s.h.confirmed + {k}));
      assert Awaiting(d, k) <==> Awaiting(s, k);
      forall i ensures !FlightOf(d, i, k) { assert FlightOf(s, i, k) ==> InHand(s, i, k); }
      ClearLife(d, k, c);
    } else {
      LaunchLife(s, k, step.fid, c);
    }
  }

  lemma FailLife<O>(s: State<O>, fid: nat, k: MessageKey, c: nat)
    requires WellFormed(s) && Life(s, k, c) && CanLand(s, fid) && FlightOf(s, fid, k)
    ensures Life(Apply(s, RouteError(fid, true)), k, c) && Life(Apply(s, CallbackFailure(fid, true)), k, c)
  {
    var f := s.flights[fid];
    assert InHand(s, fid, k) && InFlightOk(s, fid);
    FailedLife(s, fid, k, c);
  }

  lemma FailedLife<O>(s: State<O>, fid: nat, k: MessageKey, c: nat)
    requires WellFormed(s) && Life(s, k, c) && CanLand(s, fid) && FlightOf(s, fid, k)
    ensures Life(Fail(Landed(s, fid), s.flights[fid].obj, s.flights[fid].src, true), k, c)
  {
    var f := s.flights[fid];
    LandedLast(s, fid, k, c);
    assert InFlightOk(s, fid) && CachedOk(s, k.src, k);
    var l := Landed(s, fid);
    var t := Fail(l, f.obj, f.src, true);
    FailFrame(l, f.obj, f.src, true);
    assert forall i :: FlightOf(t, i, k) ==> FlightOf(l, i, k);
    assert Awaiting(t, k) <==> Awaiting(s, k);
  }

  lemma SuccessLife<O>(s: State<O>, fid: nat, txHash: string, txHeight: nat, writeOk: bool, k: MessageKey, c: nat)
    requires WellFormed(s) && Life(s, k, c) && CanLand(s, fid) && FlightOf(s, fid, k)
    ensures Life(ApplySuccess(s, fid, txHash, txHeight, writeOk, true), k, c)
  {
    var f := s.flights[fid];
    LandedLast(s, fid, k, c);
    assert InFlightOk(s, fid);
    var l := Landed(s, fid);
    if s.chains[f.dst].depth == 0 {
      var d := l.(h := l.h.(confirmed := l.h.confirmed + {k}));
      QuietLife(l, d, k);
      ClearLife(d, k, c);
    } else if !writeOk {
      QuietLife(l, l.(h := s.h.(stuck := s.h.stuck + {f.obj})), k);
    } else {
      var d := l.(finality := l.finality[DstSlot(k) := TxObject(k, s.heap[f.obj].e.msg.height, txHash, txHeight)]);
      QuietLife(l, d, k);
      ClearLife(d, k, c);
    }
  }

  lemma QuietLife<O>(s: State<O>, t: State<O>, k: MessageKey)
    requires NoFlight(s, k) && !Awaiting(s, k) && t.flights == s.flights && t.pending == s.pending
    ensures NoFlight(t, k) && !Awaiting(t, k)
  {
    assert forall i :: FlightOf(t, i, k) ==> FlightOf(s, i, k);
  }

  lemma CheckLife<O>(s: State<O>, step: Step<O>, k: MessageKey, c: nat)
    requires Life(s, k, c) && step.CheckTx? && Enabled(s, step) && step.t.key == k && k !in InsertedKeys(s, step)
    ensures Life(Apply(s, step), k, c)
  {
    assert InsertedKeys(s, step) == {};
    CheckQuiet(s, step);
    StepFrame(s, step);
    var CheckTx(x, receipt, deleteOk, generated, o) := step;
    CheckFrame(s, x, receipt, deleteOk, generated, o);
    var t := Apply(s, step);
    assert (forall i :: FlightOf(t, i, k) <==> FlightOf(s, i, k)) && (Awaiting(t, k) <==> Awaiting(s, k));
    forall i | FlightOf(t, i, k) ensures InHand(t, i, k) { assert FlightOf(s, i, k) && InHand(s, i, k); }
  }

  lemma StepLife<O>(s: State<O>, step: Step<O>, k: MessageKey, c: nat)
    requires WellFormed(s) && Numbered(s.h.known) && Life(s, k, c) && Enabled(s, step) && Orderly(s, step, k)
    ensures Life(Apply(s, step), k, if Tries(s, step, k) then c + 1 else c)
  {
    if !Concerns(s, step, k) {
      OthersLife(s, step, k, c);
    } else {
      match step
      case Merge(m, o) => MergeLife(s, m, o, c);
      case Flush(_, _, _) => FlushLife(s, step, k, c);
      case Process(_, _, _, _, _, _) => ProcessLife(s, step, k, c);
      case RouteError(fid, _) => FailLife(s, fid, k, c);
      case CallbackFailure(fid, _) => FailLife(s, fid, k, c);
      case CallbackSuccess(fid, txHash, txHeight, writeOk, _) => SuccessLife(s, fid, txHash, txHeight, writeOk, k, c);
      case CheckTx(_, _, _, _, _) => CheckLife(s, step, k, c);
      case ProcessBlock(_, _, _, _) =>
    }
  }

  lemma {:induction false} TriesFromLife<O>(s: State<O>, steps: seq<Step<O>>, k: MessageKey, c: nat)
    requires WellFormed(s) && ValidRun(s, steps) && Life(s, k, c) && OrderlyRun(s, steps, k)
    requires Numbered(Exec(s, steps).h.known)
    ensures c + CountTries(s, steps, k) <= 15
    decreases |steps|
  {
    if steps != [] {
      KnownGrows(s, steps);
      StepLife(s, steps[0], k, c);
      StepWellFormed(s, steps[0]);
      TriesFromLife(Apply(s, steps[0]), steps[1..], k, if Tries(s, steps[0], k) then c + 1 else c);
    }
  }

  /** A message that a block delivers for the first time is tried at most fifteen times, in every
      run that is orderly for it, whatever happens to all other messages. */
  lemma FifteenTries<O>(s: State<O>, block: Step<O>, steps: seq<Step<O>>, m: Message)
    requires WellFormed(s) && m.Key() !in s.h.known && block.ProcessBlock? && Enabled(s, block)
    requires forall m' :: m' in block.msgs && m'.Key() == m.Key() ==> m' == m
    requires multiset(block.msgs)[m] == 1
    requires ValidRun(Apply(s, block), steps) && OrderlyRun(Apply(s, block), steps, m.Key())
    requires Numbered(Exec(Apply(s, block), steps).h.known)
    ensures CountTries(Apply(s, block), steps, m.Key()) <= 15
  {
    var k := m.Key();
    var t := Apply(s, block);
    StepWellFormed(s, block);
    KnownGrows(t, steps);
    NewLife(s, block.nid, block.height, block.msgs, block.writeOk, m);
    TriesFromLife(t, steps, k, 0);
  }

  lemma NewLife<O>(s: State<O>, nid: string, height: nat, msgs: seq<Message>, writeOk: bool, m: Message)
    requires WellFormed(s) && m.Key() !in s.h.known && Enabled(s, ProcessBlock(nid, height, msgs, writeOk))
    requires forall m' :: m' in msgs && m'.Key() == m.Key() ==> m' == m
    requires multiset(msgs)[m] == 1 && Numbered(ApplyBlock(s, nid, height, msgs, writeOk).h.known)
    ensures Life(ApplyBlock(s, nid, height, msgs, writeOk), m.Key(), 0)
  {
    var k := m.Key();
    var t := ApplyBlock(s, nid, height, msgs, writeOk);
    assert m in multiset(msgs);
    assert m in msgs;
    assert k in t.h.known;
    assert Cached(s, k.src, k) ==> CachedOk(s, k.src, k);
    assert !Cached(t, k.src, k);
    assert forall i :: FlightOf(t, i, k) ==> InFlightOk(s, i);
    assert forall i :: !FlightOf(t, i, k);
    assert forall sl :: sl in s.messages ==>
      SrcSlot(s.messages[sl].msg.Key()) == sl && s.messages[sl].msg.Key() in s.h.known;
    assert SrcSlot(k) !in s.messages by {
      assert forall e :: SrcSlot(e) == SrcSlot(k) && e in s.h.known ==> e in t.h.known;
    }
    forall m' | m' in t.pending && m'.Key() == k ensures m' == m && t.pending[m] == 1 {
      assert m' !in s.pending;
      assert m' in multiset(msgs);
    }
  }
}
