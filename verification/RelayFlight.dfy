/** Single flight: when there is at most one attempt per message in the air. */
module RelayFlight {
  import opened Types
  import opened RelaySpec
  import opened RelayInvariants

  ghost predicate Flying<O>(s: State<O>, k: MessageKey) { exists i :: i in s.flights && s.flights[i].key == k }

  /** The attempt is for the object that is in the cache, and that object says so. */
  ghost predicate Tracked<O>(s: State<O>, f: Flight<O>)
  {
    Cached(s, f.src, f.key) && s.chains[f.src].cache[f.key] == f.obj && f.obj in s.heap &&
    s.heap[f.obj].e.isProcessing && f.obj !in s.h.stuck
  }

  ghost predicate OnePerMessage<O>(s: State<O>)
  {
    forall i, j :: i in s.flights && j in s.flights && s.flights[i].key == s.flights[j].key ==> i == j
  }

  ghost predicate AllTracked<O>(s: State<O>) { forall i :: i in s.flights ==> Tracked(s, s.flights[i]) }

  /** IsProcessing tells exactly whether an attempt is outstanding, or has ended in a success
      whose tx object could not be written. */
  ghost predicate Truthful<O>(s: State<O>, n: string, k: MessageKey)
    requires Cached(s, n, k)
  {
    var o := s.chains[n].cache[k];
    o in s.heap && (s.heap[o].e.isProcessing <==> Flying(s, k) || o in s.h.stuck)
  }

  ghost predicate AllTruthful<O>(s: State<O>) { forall n, k :: Cached(s, n, k) ==> Truthful(s, n, k) }

  ghost predicate SingleFlight<O>(s: State<O>)
  {
    OnePerMessage(s) && AllTracked(s) && AllTruthful(s) && s.h.stuck <= s.heap.Keys
  }

  /** The keys under which a step puts new objects in a cache. */
  ghost function InsertedKeys<O>(s: State<O>, step: Step<O>): set<MessageKey>
    requires Enabled(s, step)
  {
    match step
    case Merge(m, _) => {m.Key()}
    case Flush(_, listing, _) => set e | e in Active(Entries(s.messages, listing)) :: e.msg.Key()
    case CheckTx(t, receipt, deleteOk, generated, _) =>
      if Deletes(s, t, receipt, deleteOk) && !receipt.value && generated.Some? then {t.key} else {}
    case _ => {}
  }

  /** The step puts a new object in the cache for a message that has an attempt in the air. */
  ghost predicate Reinserts<O>(s: State<O>, step: Step<O>)
    requires Enabled(s, step)
  {
    exists k :: k in InsertedKeys(s, step) && Flying(s, k)
  }

  // ---------- insertions ----------

  lemma InsertSingleFlight<O>(s: State<O>, nid: string, e: Entry, o: O)
    requires WellFormed(s) && SingleFlight(s) && nid in s.chains && o !in s.heap && Enters(e, nid)
    requires !Flying(s, e.msg.Key())
    ensures SingleFlight(Insert(s, nid, e, o))
  {
    var t := Insert(s, nid, e, o);
    forall i | i in t.flights ensures Tracked(t, t.flights[i]) { assert Tracked(s, s.flights[i]); }
    forall n, k | Cached(t, n, k) ensures Truthful(t, n, k) {
      assert Flying(t, k) <==> Flying(s, k);
      if !(n == nid && k == e.msg.Key()) { assert Cached(s, n, k) && Truthful(s, n, k) && CachedOk(s, n, k); }
    }
  }

  lemma {:induction false} InsertAllSingleFlight<O>(s: State<O>, nid: string, es: seq<Entry>, os: seq<O>)
    requires WellFormed(s) && SingleFlight(s) && nid in s.chains && |es| == |os|
    requires forall i :: 0 <= i < |os| ==> os[i] !in s.heap
    requires forall i, j :: 0 <= i < j < |os| ==> os[i] != os[j]
    requires forall e :: e in es ==> Enters(e, nid) && e.msg.Key() in s.h.known && !Flying(s, e.msg.Key())
    ensures SingleFlight(InsertAll(s, nid, es, os))
    decreases |es|
  {
    if es != [] {
      assert es[0] in es;
      InsertSingleFlight(s, nid, es[0], os[0]);
      InsertWellFormed(s, nid, es[0], os[0]);
      var t := Insert(s, nid, es[0], os[0]);
      assert forall k :: Flying(t, k) <==> Flying(s, k);
      InsertAllSingleFlight(t, nid, es[1..], os[1..]);
    }
  }

  /** Whatever was inserted lies idle in the cache. */
  lemma {:induction false} InsertAllIdle<O>(s: State<O>, nid: string, es: seq<Entry>, os: seq<O>, k: MessageKey)
    requires CacheOk(s) && nid in s.chains && |es| == |os|
    requires forall i :: 0 <= i < |os| ==> os[i] !in s.heap
    requires forall i, j :: 0 <= i < j < |os| ==> os[i] != os[j]
    requires forall e :: e in es ==> Enters(e, nid) && e.msg.Key() in s.h.known
    requires Idle(s, nid, k) || exists e :: e in es && e.msg.Key() == k
    ensures Idle(InsertAll(s, nid, es, os), nid, k) && InsertAll(s, nid, es, os).flights == s.flights
    decreases |es|
  {
    if es != [] {
      assert es[0] in es;
      var t := Insert(s, nid, es[0], os[0]);
      forall n, k | Cached(t, n, k) ensures CachedOk(t, n, k) { assert Cached(s, n, k) || k == es[0].msg.Key(); }
      InsertAllIdle(t, nid, es[1..], os[1..], k);
    }
  }

  lemma IdleBreaks<O>(t: State<O>, k: MessageKey)
    requires Idle(t, k.src, k) && Flying(t, k) && FlightsOk(t)
    ensures !SingleFlight(t)
  {
    var i :| i in t.flights && t.flights[i].key == k;
    assert InFlightOk(t, i);
    assert !Tracked(t, t.flights[i]);
  }

  // ---------- endings ----------

  /** `fs` are the attempts of `s` for other messages than `k`. */
  ghost predicate OtherFlights<O>(s: State<O>, fs: map<nat, Flight<O>>, k: MessageKey)
  {
    && (forall i :: i in s.flights && s.flights[i].key != k ==> i in fs)
    && (forall i :: i in fs ==> i in s.flights && fs[i] == s.flights[i] && fs[i].key != k)
  }

  lemma LandedIsOthers<O>(s: State<O>, fid: nat)
    requires OnePerMessage(s) && fid in s.flights
    ensures OtherFlights(s, Landed(s, fid).flights, s.flights[fid].key)
  {
  }

  lemma OthersStillFly<O>(s: State<O>, t: State<O>, k: MessageKey)
    requires OtherFlights(s, t.flights, k)
    ensures forall k' :: Flying(t, k') <==> k' != k && Flying(s, k')
  {
    forall k' ensures Flying(t, k') <==> k' != k && Flying(s, k') {
      if k' != k && Flying(s, k') {
        var i :| i in s.flights && s.flights[i].key == k';
        assert i in t.flights;
      }
    }
  }

  /** The message leaves the cache when none of its attempts remains. */
  lemma RemoveSingleFlight<O>(s: State<O>, t: State<O>, k: MessageKey)
    requires CacheOk(s) && SingleFlight(s) && k.src in s.chains && OtherFlights(s, t.flights, k)
    requires t.chains == Remove(s, k.src, k).chains && t.heap == s.heap && t.h.stuck == s.h.stuck
    ensures SingleFlight(t)
  {
    OthersCached(s, t, k);
    RemoveTruthful(s, t, k);
    RemoveTracked(s, t, k);
  }

  lemma OthersCached<O>(s: State<O>, t: State<O>, k: MessageKey)
    requires CacheOk(s) && k.src in s.chains && t.chains == Remove(s, k.src, k).chains
    ensures forall n, k' :: Cached(t, n, k') ==>
      Cached(s, n, k') && t.chains[n].cache[k'] == s.chains[n].cache[k'] && k' != k
  {
    forall n, k' | Cached(t, n, k') ensures Cached(s, n, k') && k' != k {
      assert Cached(s, n, k') && CachedOk(s, n, k');
    }
  }

  lemma RemoveTracked<O>(s: State<O>, t: State<O>, k: MessageKey)
    requires AllTracked(s) && k.src in s.chains && OtherFlights(s, t.flights, k)
    requires t.chains == Remove(s, k.src, k).chains && t.heap == s.heap && t.h.stuck == s.h.stuck
    ensures AllTracked(t)
  {
    forall i | i in t.flights ensures Tracked(t, t.flights[i]) { assert Tracked(s, s.flights[i]); }
  }

  lemma RemoveTruthful<O>(s: State<O>, t: State<O>, k: MessageKey)
    requires AllTruthful(s) && OtherFlights(s, t.flights, k) && t.heap == s.heap && t.h.stuck == s.h.stuck
    requires forall n, k' :: Cached(t, n, k') ==>
      Cached(s, n, k') && t.chains[n].cache[k'] == s.chains[n].cache[k'] && k' != k
    ensures AllTruthful(t)
  {
    OthersStillFly(s, t, k);
    forall n, k' | Cached(t, n, k') ensures Truthful(t, n, k') { assert Cached(s, n, k') && Truthful(s, n, k'); }
  }

  /** The object is idle again when none of its attempts remains. */
  lemma GiveBackSingleFlight<O>(s: State<O>, t: State<O>, k: MessageKey)
    requires WellFormed(s) && SingleFlight(s) && Cached(s, k.src, k) && OtherFlights(s, t.flights, k)
    requires s.chains[k.src].cache[k] in s.heap && s.chains[k.src].cache[k] !in s.h.stuck
    requires t.chains == s.chains && t.h.stuck == s.h.stuck && t.heap.Keys == s.heap.Keys
    requires var o := s.chains[k.src].cache[k];
      !t.heap[o].e.isProcessing && forall p :: p in s.heap && p != o ==> t.heap[p] == s.heap[p]
    ensures SingleFlight(t)
  {
    OthersStillFly(s, t, k);
    forall i | i in t.flights ensures Tracked(t, t.flights[i]) {
      assert Tracked(s, s.flights[i]) && InFlightOk(s, i);
    }
    forall n, k' | Cached(t, n, k') ensures Truthful(t, n, k') {
      assert Cached(s, n, k') && Truthful(s, n, k') && CachedOk(s, n, k') && CachedOk(s, k.src, k);
    }
  }

  lemma FailSingleFlight<O>(s: State<O>, fid: nat, storeOk: bool)
    requires WellFormed(s) && SingleFlight(s) && CanLand(s, fid)
    ensures SingleFlight(Fail(Landed(s, fid), s.flights[fid].obj, s.flights[fid].src, storeOk))
  {
    var f := s.flights[fid];
    assert Tracked(s, f) && InFlightOk(s, fid);
    LandedIsOthers(s, fid);
    var g := GiveBack(Landed(s, fid), f.obj);
    GiveBackSingleFlight(s, g, f.key);
    GiveBackSingleFlight(s, LoseWrite(g, f.obj), f.key);
    ShelveSingleFlight(s, fid);
  }

  lemma ShelveSingleFlight<O>(s: State<O>, fid: nat)
    requires WellFormed(s) && CanLand(s, fid) && SingleFlight(GiveBack(Landed(s, fid), s.flights[fid].obj))
    requires OnePerMessage(s)
    ensures SingleFlight(Shelve(GiveBack(Landed(s, fid), s.flights[fid].obj), s.flights[fid].obj, s.flights[fid].src))
  {
    var f := s.flights[fid];
    assert InFlightOk(s, fid);
    var g := GiveBack(Landed(s, fid), f.obj);
    FrameWellFormed(s, Landed(s, fid));
    GiveBackKeeps(Landed(s, fid), f.obj);
    RemoveSingleFlight(g, Shelve(g, f.obj, f.src), f.key);
  }

  lemma SuccessSingleFlight<O>(s: State<O>, step: Step<O>)
    requires WellFormed(s) && SingleFlight(s) && step.CallbackSuccess? && Enabled(s, step)
    ensures SingleFlight(Apply(s, step))
  {
    var CallbackSuccess(fid, txHash, txHeight, writeOk, deleteOk) := step;
    LandsWithSuccess(s, fid, txHash, txHeight, writeOk, deleteOk);
  }

  lemma LandsWithSuccess<O>(s: State<O>, fid: nat, txHash: string, txHeight: nat, writeOk: bool, deleteOk: bool)
    requires WellFormed(s) && SingleFlight(s) && CanLand(s, fid)
    ensures SingleFlight(ApplySuccess(s, fid, txHash, txHeight, writeOk, deleteOk))
  {
    var f := s.flights[fid];
    assert Tracked(s, f) && InFlightOk(s, fid);
    LandedIsOthers(s, fid);
    var l := Landed(s, fid);
    if s.chains[f.dst].depth == 0 {
      RemoveSingleFlight(s, Confirm(l, f.src, f.key, deleteOk), f.key);
    } else if writeOk {
      var tx := TxObject(f.key, s.heap[f.obj].e.msg.height, txHash, txHeight);
      RemoveSingleFlight(s, Watch(l, f.src, tx, deleteOk), f.key);
    } else {
      StuckSingleFlight(s, l.(h := s.h.(stuck := s.h.stuck + {f.obj})), f.key, f.obj);
    }
  }

  /** The attempt ended, but the object stays as it is. */
  lemma StuckSingleFlight<O>(s: State<O>, t: State<O>, k: MessageKey, o: O)
    requires WellFormed(s) && SingleFlight(s) && OtherFlights(s, t.flights, k)
    requires Cached(s, k.src, k) && s.chains[k.src].cache[k] == o && o in s.heap && s.heap[o].e.isProcessing
    requires t.chains == s.chains && t.heap == s.heap && t.h.stuck == s.h.stuck + {o}
    ensures SingleFlight(t)
  {
    OthersStillFly(s, t, k);
    assert CachedOk(s, k.src, k);
    forall i | i in t.flights ensures Tracked(t, t.flights[i]) {
      assert Tracked(s, s.flights[i]) && InFlightOk(s, i);
    }
    forall n, k' | Cached(t, n, k') ensures Truthful(t, n, k') {
      assert Cached(s, n, k') && Truthful(s, n, k') && CachedOk(s, n, k');
    }
  }

  lemma LaunchSingleFlight<O>(s: State<O>, nid: string, k: MessageKey, fid: nat)
    requires WellFormed(s) && SingleFlight(s) && Idle(s, nid, k) && fid !in s.flights
    ensures SingleFlight(Launch(s, nid, s.chains[nid].cache[k], fid))
  {
    assert CachedOk(s, nid, k) && Truthful(s, nid, k);
    LaunchTracked(s, nid, k, fid);
    LaunchTruthful(s, nid, k, fid);
  }

  lemma LaunchTracked<O>(s: State<O>, nid: string, k: MessageKey, fid: nat)
    requires CacheOk(s) && FlightsOk(s) && AllTracked(s) && Idle(s, nid, k) && fid !in s.flights
    requires s.chains[nid].cache[k] !in s.h.stuck
    ensures AllTracked(Launch(s, nid, s.chains[nid].cache[k], fid))
  {
    var t := Launch(s, nid, s.chains[nid].cache[k], fid);
    assert CachedOk(s, nid, k);
    forall i | i in t.flights ensures Tracked(t, t.flights[i]) {
      if i != fid { assert Tracked(s, s.flights[i]) && InFlightOk(s, i); }
    }
  }

  lemma LaunchTruthful<O>(s: State<O>, nid: string, k: MessageKey, fid: nat)
    requires CacheOk(s) && AllTruthful(s) && Idle(s, nid, k) && fid !in s.flights
    ensures AllTruthful(Launch(s, nid, s.chains[nid].cache[k], fid))
  {
    var t := Launch(s, nid, s.chains[nid].cache[k], fid);
    assert CachedOk(s, nid, k) && Truthful(s, nid, k);
    assert t.flights[fid].key == k;
    forall n, k' | Cached(t, n, k') ensures Truthful(t, n, k') {
      assert Cached(s, n, k') && Truthful(s, n, k') && CachedOk(s, n, k');
      if k' != k { StillFlying(s, t, fid, k'); }
    }
  }

  lemma StillFlying<O>(s: State<O>, t: State<O>, fid: nat, k: MessageKey)
    requires fid !in s.flights && fid in t.flights && t.flights == s.flights[fid := t.flights[fid]]
    requires t.flights[fid].key != k
    ensures Flying(t, k) <==> Flying(s, k)
  {
    if Flying(s, k) {
      var i :| i in s.flights && s.flights[i].key == k;
      assert i in t.flights && t.flights[i].key == k;
    }
  }

  lemma UnknownDoesNotFly<O>(s: State<O>, k: MessageKey)
    requires FlightsOk(s) && k.dst !in s.chains
    ensures !Flying(s, k)
  {
    forall i | i in s.flights ensures s.flights[i].key != k { assert InFlightOk(s, i); }
  }

  lemma DropSingleFlight<O>(s: State<O>, k: MessageKey, deleteOk: bool)
    requires CacheOk(s) && FlightsOk(s) && SingleFlight(s) && k.src in s.chains && k.dst !in s.chains
    ensures SingleFlight(Clear(s.(h := s.h.(unknownDst := s.h.unknownDst + {k})), k.src, k, deleteOk))
  {
    UnknownDoesNotFly(s, k);
    RemoveSingleFlight(s, Clear(s.(h := s.h.(unknownDst := s.h.unknownDst + {k})), k.src, k, deleteOk), k);
  }

  lemma ConfirmSingleFlight<O>(s: State<O>, k: MessageKey, deleteOk: bool)
    requires WellFormed(s) && SingleFlight(s) && Idle(s, k.src, k)
    ensures SingleFlight(Confirm(s, k.src, k, deleteOk))
  {
    assert Truthful(s, k.src, k);
    RemoveSingleFlight(s, Confirm(s, k.src, k, deleteOk), k);
  }

  lemma ProcessSingleFlight<O>(s: State<O>, step: Step<O>)
    requires WellFormed(s) && SingleFlight(s) && step.Process? && Enabled(s, step)
    ensures SingleFlight(Apply(s, step))
  {
    var k := step.k;
    var o := s.chains[step.nid].cache[k];
    assert CachedOk(s, step.nid, k);
    if s.heap[o].e.msg.dst !in s.chains {
      DropSingleFlight(s, k, step.deleteOk);
    } else if s.heap[o].e.isProcessing || !step.willing || step.received.Error? {
      assert Apply(s, step) == s;
    } else if step.received.value {
      ConfirmSingleFlight(s, k, step.deleteOk);
    } else {
      LaunchSingleFlight(s, step.nid, k, step.fid);
    }
  }

  // ---------- each step, every run ----------

  lemma FrameSingleFlight<O>(s: State<O>, t: State<O>)
    requires t.heap == s.heap && t.flights == s.flights && t.h.stuck == s.h.stuck && t.chains.Keys == s.chains.Keys
    requires forall n :: n in s.chains ==> t.chains[n].cache == s.chains[n].cache
    ensures SingleFlight(t) <==> SingleFlight(s)
  {
    assert forall k :: Flying(t, k) <==> Flying(s, k);
    assert forall n, k :: Cached(t, n, k) <==> Cached(s, n, k);
    assert forall i :: i in s.flights ==> (Tracked(t, t.flights[i]) <==> Tracked(s, s.flights[i]));
    assert forall n, k :: Cached(s, n, k) ==> (Truthful(t, n, k) <==> Truthful(s, n, k));
  }

  lemma FlushSingleFlight<O>(s: State<O>, step: Step<O>)
    requires WellFormed(s) && SingleFlight(s) && step.Flush? && Enabled(s, step)
    ensures SingleFlight(Apply(s, step)) <==> !Reinserts(s, step)
  {
    var Flush(nid, listing, os) := step;
    var es := Active(Entries(s.messages, listing));
    FlushEnters(s, nid, listing);
    if Reinserts(s, step) {
      var k :| k in InsertedKeys(s, step) && Flying(s, k);
      InsertAllIdle(s, nid, es, os, k);
      StepWellFormed(s, step);
      var e :| e in es && e.msg.Key() == k;
      assert Flying(Apply(s, step), k);
      IdleBreaks(Apply(s, step), k);
    } else {
      forall e | e in es ensures !Flying(s, e.msg.Key()) { assert e.msg.Key() in InsertedKeys(s, step); }
      InsertAllSingleFlight(s, nid, es, os);
    }
  }

  lemma InsertOneSingleFlight<O>(s: State<O>, s': State<O>, m: Message, o: O)
    requires WellFormed(s) && SingleFlight(s)
    requires s' == s.(pending := s'.pending, finality := s'.finality, scan := s'.scan)
    requires WellFormed(s') && m.src in s.chains && o !in s.heap && m.Key() in s.h.known
    ensures SingleFlight(Insert(s', m.src, Fresh(m), o)) <==> !Flying(s, m.Key())
  {
    FrameSingleFlight(s, s');
    assert Flying(s', m.Key()) <==> Flying(s, m.Key());
    var t := Insert(s', m.src, Fresh(m), o);
    if Flying(s, m.Key()) {
      InsertWellFormed(s', m.src, Fresh(m), o);
      assert Flying(t, m.Key());
      IdleBreaks(t, m.Key());
    } else {
      InsertSingleFlight(s', m.src, Fresh(m), o);
    }
  }

  lemma MergeSingleFlight<O>(s: State<O>, m: Message, o: O)
    requires WellFormed(s) && SingleFlight(s) && Enabled(s, Merge(m, o))
    ensures SingleFlight(Apply(s, Merge(m, o))) <==> !Reinserts(s, Merge(m, o))
  {
    MergeInserts(s, m, o);
    assert InsertedKeys(s, Merge(m, o)) == {m.Key()};
  }

  lemma MergeInserts<O>(s: State<O>, m: Message, o: O)
    requires WellFormed(s) && SingleFlight(s) && m in s.pending && o !in s.heap
    ensures m.src in s.chains
    ensures SingleFlight(Insert(s.(pending := s.pending - multiset{m}), m.src, Fresh(m), o)) <==> !Flying(s, m.Key())
  {
    var s' := s.(pending := s.pending - multiset{m});
    FrameWellFormed(s, s');
    InsertOneSingleFlight(s, s', m, o);
  }

  /** Under single flight the object in the cache is the one that the attempt was for. */
  lemma CallbackFailureSingleFlight<O>(s: State<O>, fid: nat, storeOk: bool)
    requires WellFormed(s) && SingleFlight(s) && CanLand(s, fid)
    ensures Apply(s, CallbackFailure(fid, storeOk)) == Apply(s, RouteError(fid, storeOk))
    ensures SingleFlight(Apply(s, CallbackFailure(fid, storeOk)))
  {
    assert Tracked(s, s.flights[fid]);
    FailSingleFlight(s, fid, storeOk);
  }

  lemma CheckSingleFlight<O>(s: State<O>, step: Step<O>)
    requires WellFormed(s) && SingleFlight(s) && step.CheckTx? && Enabled(s, step)
    ensures SingleFlight(Apply(s, step)) <==> !Reinserts(s, step)
  {
    if InsertedKeys(s, step) == {} {
      CheckQuiet(s, step);
      FrameSingleFlight(s, Apply(s, step));
    } else {
      RegenerateSingleFlight(s, step);
    }
  }

  lemma RegenerateSingleFlight<O>(s: State<O>, step: Step<O>)
    requires WellFormed(s) && SingleFlight(s) && step.CheckTx? && Enabled(s, step) && InsertedKeys(s, step) != {}
    ensures SingleFlight(Apply(s, step)) <==> !Reinserts(s, step)
  {
    var t := step.t;
    assert InsertedKeys(s, step) == {t.key};
    var s' := Withdraw(Checked(s, t), t);
    WithdrawWellFormed(s, t);
    InsertOneSingleFlight(s, s', step.generated.value, step.o);
  }

  lemma CheckQuiet<O>(s: State<O>, step: Step<O>)
    requires step.CheckTx? && Enabled(s, step) && InsertedKeys(s, step) == {}
    ensures var t := Apply(s, step);
      t.heap == s.heap && t.flights == s.flights && t.h.stuck == s.h.stuck && t.chains == s.chains
  {
    if Deletes(s, step.t, step.receipt, step.deleteOk) && !step.receipt.value {
      assert step.t.key !in InsertedKeys(s, step);
    }
  }

  lemma QuietSingleFlight<O>(s: State<O>, step: Step<O>)
    requires SingleFlight(s) && Enabled(s, step) && (step.ProcessBlock? || step.ScanTx?)
    ensures SingleFlight(Apply(s, step)) && !Reinserts(s, step)
  {
    FrameSingleFlight(s, Apply(s, step));
  }

  lemma StepSingleFlight<O>(s: State<O>, step: Step<O>)
    requires WellFormed(s) && SingleFlight(s) && Enabled(s, step)
    ensures SingleFlight(Apply(s, step)) <==> !Reinserts(s, step)
  {
    match step
    case ProcessBlock(_, _, _, _) => QuietSingleFlight(s, step);
    case Merge(m, o) => MergeSingleFlight(s, m, o);
    case Flush(_, _, _) => FlushSingleFlight(s, step);
    case Process(_, _, _, _, _, _) => ProcessSingleFlight(s, step);
    case RouteError(fid, storeOk) => FailSingleFlight(s, fid, storeOk);
    case CallbackFailure(fid, storeOk) => CallbackFailureSingleFlight(s, fid, storeOk);
    case CallbackSuccess(_, _, _, _, _) => SuccessSingleFlight(s, step);
    case ScanTx(_) => QuietSingleFlight(s, step);
    case CheckTx(_, _, _, _, _) => CheckSingleFlight(s, step);
  }

  ghost predicate AlwaysSingleFlight<O>(s: State<O>, steps: seq<Step<O>>)
    requires ValidRun(s, steps)
    decreases |steps|
  {
    SingleFlight(s) && (steps == [] || AlwaysSingleFlight(Apply(s, steps[0]), steps[1..]))
  }

  ghost predicate NeverReinserts<O>(s: State<O>, steps: seq<Step<O>>)
    requires ValidRun(s, steps)
    decreases |steps|
  {
    steps == [] || (!Reinserts(s, steps[0]) && NeverReinserts(Apply(s, steps[0]), steps[1..]))
  }

  /** Single flight holds in every state of a run if and only if no step of the run puts a message
      back in the cache while one of its attempts is in the air. */
  lemma {:induction false} SingleFlightIff<O>(s: State<O>, steps: seq<Step<O>>)
    requires WellFormed(s) && SingleFlight(s) && ValidRun(s, steps)
    ensures AlwaysSingleFlight(s, steps) <==> NeverReinserts(s, steps)
    decreases |steps|
  {
    if steps != [] {
      StepSingleFlight(s, steps[0]);
      StepWellFormed(s, steps[0]);
      var t := Apply(s, steps[0]);
      if SingleFlight(t) {
        SingleFlightIff(t, steps[1..]);
      } else {
        assert !AlwaysSingleFlight(t, steps[1..]);
      }
    }
  }

  lemma InitSingleFlight<O>(s: State<O>)
    requires Init(s)
    ensures SingleFlight(s)
  {
  }
}
