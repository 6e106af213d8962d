/** The message life cycle of the relayer as a state machine: one function for every
    atomic step, and one step for every answer that a provider or the database may give.
    `O` is the identity of RouteMessage objects: a cache entry, and an attempt in the
    air, refer to objects, and flush replaces cache objects while older ones are still
    in the air. */
module RelaySpec {
  import opened Types

  /** A running RouteMessage goroutine: `key` is what the provider will hand to the callback. */
  datatype Flight<O> = Flight(obj: O, key: MessageKey, src: string, dst: string)

  /** A RouteMessage object. `start` and `failedWrites` are history: its Retry when it was put
      in a cache, and how many of its writes to the message store failed. */
  datatype Cell = Cell(e: Entry, start: nat, failedWrites: nat)

  /** A ChainRuntime; `depth` is the provider's FinalityBlock. */
  datatype Chain<O> = Chain(depth: nat, lastBlock: nat, lastSaved: nat, cache: map<MessageKey, O>)

  /** What has happened so far. No step reads it. */
  datatype History<O> = History(
    known: set<MessageKey>,          // delivered by a listener, or in a store at the start
    confirmed: set<MessageKey>,      // the destination said so
    unknownDst: set<MessageKey>,     // dropped: destination not configured
    notRegenerated: set<MessageKey>, // dropped: the tx was reverted and GenerateMessage failed
    dispatched: nat,                 // attempts started
    writeFailures: nat,              // failed writes to the message store
    lostBefore: nat,                 // those of earlier sessions on the database
    stuck: set<O>)                   // succeeded, but the write of the tx object failed

  /** The scan that CheckFinality works on: the chain, the last block that the scan saw, and the tx
      objects that are not checked yet. */
  datatype TxScan = TxScan(nid: string, height: nat, left: set<TxObject>)

  datatype State<O> = State(
    chains: map<string, Chain<O>>,
    heap: map<O, Cell>,
    pending: multiset<Message>,      // handed to a mergeMessages goroutine, not yet merged
    messages: map<Slot, Entry>,
    finality: map<Slot, TxObject>,
    blocks: map<string, nat>,
    flights: map<nat, Flight<O>>,
    scan: TxScan,
    h: History<O>)

  // ---------- building blocks ----------

  function Fresh(m: Message): Entry { Entry(m, 0, false) }

  ghost predicate Cached<O>(s: State<O>, n: string, k: MessageKey) { n in s.chains && k in s.chains[n].cache }

  ghost function SetCache<O>(s: State<O>, nid: string, c: map<MessageKey, O>): State<O>
    requires nid in s.chains
  {
    s.(chains := s.chains[nid := s.chains[nid].(cache := c)])
  }

  /** MessageCache.Add of a new object. */
  ghost function Insert<O>(s: State<O>, nid: string, e: Entry, o: O): State<O>
    requires nid in s.chains
  {
    SetCache(s.(heap := s.heap[o := Cell(e, e.retry, 0)]), nid, s.chains[nid].cache[e.msg.Key() := o])
  }

  ghost function InsertAll<O>(s: State<O>, nid: string, es: seq<Entry>, os: seq<O>): State<O>
    requires nid in s.chains && |es| == |os|
    decreases |es|
  {
    if es == [] then s else InsertAll(Insert(s, nid, es[0], os[0]), nid, es[1..], os[1..])
  }

  /** MessageCache.Remove. */
  ghost function Remove<O>(s: State<O>, nid: string, k: MessageKey): State<O>
    requires nid in s.chains
  {
    SetCache(s, nid, s.chains[nid].cache - {k})
  }

  /** ClearMessages of one key; the delete in the database may fail. */
  ghost function Clear<O>(s: State<O>, nid: string, k: MessageKey, deleteOk: bool): State<O>
    requires nid in s.chains
  {
    var s' := Remove(s, nid, k);
    if deleteOk then s'.(messages := s'.messages - {SrcSlot(k)}) else s'
  }

  /** The destination has the message. */
  ghost function Confirm<O>(s: State<O>, nid: string, k: MessageKey, deleteOk: bool): State<O>
    requires nid in s.chains
  {
    Clear(s.(h := s.h.(confirmed := s.h.confirmed + {k})), nid, k, deleteOk)
  }

  /** The transaction of message `t.key` succeeded, and waits for finality. */
  ghost function Watch<O>(s: State<O>, nid: string, t: TxObject, deleteOk: bool): State<O>
    requires nid in s.chains
  {
    Clear(s.(finality := s.finality[DstSlot(t.key) := t]), nid, t.key, deleteOk)
  }

  /** DeleteTxObject. */
  ghost function Withdraw<O>(s: State<O>, t: TxObject): State<O> { s.(finality := s.finality - {DstSlot(t.key)}) }

  /** SetIsProcessing(false). */
  ghost function GiveBack<O>(s: State<O>, o: O): State<O>
    requires o in s.heap
  {
    s.(heap := s.heap[o := s.heap[o].(e := s.heap[o].e.(isProcessing := false))])
  }

  /** The message goes from the cache to the message store. */
  ghost function Shelve<O>(s: State<O>, o: O, src: string): State<O>
    requires o in s.heap && src in s.chains
  {
    var e := s.heap[o].e;
    Remove(s.(messages := s.messages[SrcSlot(e.msg.Key()) := e]), src, e.msg.Key())
  }

  /** The write to the message store failed. */
  ghost function LoseWrite<O>(s: State<O>, o: O): State<O>
    requires o in s.heap
  {
    s.(heap := s.heap[o := s.heap[o].(failedWrites := s.heap[o].failedWrites + 1)],
       h := s.h.(writeFailures := s.h.writeFailures + 1))
  }

  /** HandleMessageFailed. */
  ghost function Fail<O>(s: State<O>, o: O, src: string, storeOk: bool): State<O>
    requires o in s.heap && src in s.chains
  {
    var retry := s.heap[o].e.retry;
    if retry == 0 || retry % 3 != 0 then GiveBack(s, o)
    else if storeOk then Shelve(GiveBack(s, o), o, src)
    else LoseWrite(GiveBack(s, o), o)
  }

  /** SaveBlockHeight decides in uint64 arithmetic. */
  predicate MustSave(lastSaved: nat, height: nat, messageCount: nat)
    requires lastSaved < TWO64 && height < TWO64
  {
    messageCount > 0 || Sub64(height, lastSaved) > SAVE_AFTER
  }

  /** The messages that are not stale, in scan order. */
  function NotStale(es: seq<Entry>): seq<Entry>
  {
    if es == [] then []
    else (if es[0].IsStale() then [] else [es[0]]) + NotStale(es[1..])
  }

  /** What one flush of a chain brings back. */
  function Active(es: seq<Entry>): seq<Entry>
  {
    var fs := NotStale(es);
    if |fs| > MAX_FLUSH + 1 then fs[..MAX_FLUSH + 1] else fs
  }

  /** `listing` is a scan of the message store for one chain, in any order. */
  ghost predicate IsListing(messages: map<Slot, Entry>, nid: string, listing: seq<Slot>)
  {
    && (forall i, j :: 0 <= i < j < |listing| ==> listing[i] != listing[j])
    && (forall sl :: sl in listing <==> sl in messages && sl.nid == nid)
  }

  function Entries(messages: map<Slot, Entry>, listing: seq<Slot>): seq<Entry>
    requires forall sl :: sl in listing ==> sl in messages
  {
    seq(|listing|, i requires 0 <= i < |listing| => messages[listing[i]])
  }

  // ---------- steps ----------

  datatype Answer<+T> = Error | Reply(value: T)

  datatype Step<O> =
    | ProcessBlock(nid: string, height: nat, msgs: seq<Message>, writeOk: bool)
    | Merge(m: Message, o: O)
    | Flush(nid: string, listing: seq<Slot>, os: seq<O>)
    | Process(nid: string, k: MessageKey, willing: bool, received: Answer<bool>, deleteOk: bool, fid: nat)
    | RouteError(fid: nat, storeOk: bool)
    | CallbackFailure(fid: nat, storeOk: bool)
    | CallbackSuccess(fid: nat, txHash: string, txHeight: nat, writeOk: bool, deleteOk: bool)
    | ScanTx(nid: string)
    | CheckTx(t: TxObject, receipt: Answer<bool>, deleteOk: bool, generated: Option<Message>, o: O)

  /** When a step can be taken, and what the environment may answer. */
  ghost predicate Enabled<O>(s: State<O>, step: Step<O>)
  {
    match step
    case ProcessBlock(nid, height, msgs, _) =>
      nid in s.chains && s.chains[nid].lastSaved < TWO64 && height < TWO64 &&
      forall m :: m in msgs ==> m.src == nid
    case Merge(m, o) => m in s.pending && o !in s.heap && m.src in s.chains
    case Flush(nid, listing, os) =>
      nid in s.chains && IsListing(s.messages, nid, listing) &&
      |os| == |Active(Entries(s.messages, listing))| &&
      (forall i :: 0 <= i < |os| ==> os[i] !in s.heap) &&
      (forall i, j :: 0 <= i < j < |os| ==> os[i] != os[j])
    case Process(nid, k, _, _, _, fid) =>
      Cached(s, nid, k) && s.chains[nid].cache[k] in s.heap && fid !in s.flights
    case RouteError(fid, _) => CanLand(s, fid)
    case CallbackFailure(fid, _) => CanLand(s, fid)
    case CallbackSuccess(fid, _, _, _, _) => CanLand(s, fid)
    case ScanTx(nid) => nid in s.chains && s.chains[nid].depth > 0 && s.scan.left == {}
    case CheckTx(t, _, _, generated, o) =>
      t in s.scan.left && s.scan.nid in s.chains && s.chains[s.scan.nid].depth > 0 && o !in s.heap &&
      (generated.Some? ==> generated.value.Key() == t.key)
  }

  /** The objects and chains that the end of an attempt touches exist. */
  ghost predicate CanLand<O>(s: State<O>, fid: nat)
  {
    fid in s.flights &&
    var f := s.flights[fid];
    f.src in s.chains && f.dst in s.chains && f.obj in s.heap &&
    (f.key in s.chains[f.src].cache ==> s.chains[f.src].cache[f.key] in s.heap)
  }

  ghost function Apply<O>(s: State<O>, step: Step<O>): State<O>
    requires Enabled(s, step)
  {
    match step
    case ProcessBlock(nid, height, msgs, writeOk) => ApplyBlock(s, nid, height, msgs, writeOk)
    case Merge(m, o) => Insert(s.(pending := s.pending - multiset{m}), m.src, Fresh(m), o)
    case Flush(nid, listing, os) => InsertAll(s, nid, Active(Entries(s.messages, listing)), os)
    case Process(nid, k, willing, received, deleteOk, fid) => ApplyProcess(s, nid, k, willing, received, deleteOk, fid)
    case RouteError(fid, storeOk) => Fail(Landed(s, fid), s.flights[fid].obj, s.flights[fid].src, storeOk)
    case CallbackFailure(fid, storeOk) =>
      var f := s.flights[fid];
      if f.key !in s.chains[f.src].cache then Landed(s, fid)
      else Fail(Landed(s, fid), s.chains[f.src].cache[f.key], f.src, storeOk)
    case CallbackSuccess(fid, txHash, txHeight, writeOk, deleteOk) =>
      ApplySuccess(s, fid, txHash, txHeight, writeOk, deleteOk)
    case ScanTx(nid) => ApplyScan(s, nid)
    case CheckTx(t, receipt, deleteOk, generated, o) => ApplyCheck(s, t, receipt, deleteOk, generated, o)
  }

  ghost function Landed<O>(s: State<O>, fid: nat): State<O> { s.(flights := s.flights - {fid}) }

  /** processBlockInfo: the heights now, the messages through a goroutine. */
  ghost function ApplyBlock<O>(s: State<O>, nid: string, height: nat, msgs: seq<Message>, writeOk: bool): State<O>
    requires nid in s.chains && s.chains[nid].lastSaved < TWO64 && height < TWO64
  {
    var c := s.chains[nid];
    var save := MustSave(c.lastSaved, height, |msgs|);
    s.(chains := s.chains[nid := c.(lastBlock := height, lastSaved := if save then height else c.lastSaved)],
       blocks := if save && writeOk then s.blocks[nid := height] else s.blocks,
       pending := s.pending + multiset(msgs),
       h := s.h.(known := s.h.known + set m | m in msgs :: m.Key()))
  }

  /** One iteration of the inner loop of processMessages, with the start of RouteMessage. */
  ghost function ApplyProcess<O>(s: State<O>, nid: string, k: MessageKey, willing: bool, received: Answer<bool>,
                                 deleteOk: bool, fid: nat): State<O>
    requires Cached(s, nid, k) && s.chains[nid].cache[k] in s.heap
  {
    var o := s.chains[nid].cache[k];
    var e := s.heap[o].e;
    var key := e.msg.Key();
    if e.msg.dst !in s.chains then
      Clear(s.(h := s.h.(unknownDst := s.h.unknownDst + {key})), nid, key, deleteOk)
    else if e.isProcessing || !willing || received.Error? then s
    else if received.value then
      Confirm(s, nid, key, deleteOk)
    else Launch(s, nid, o, fid)
  }

  /** The start of RouteMessage: SetIsProcessing(true), IncrementRetry and the call of Route. */
  ghost function Launch<O>(s: State<O>, nid: string, o: O, fid: nat): State<O>
    requires o in s.heap
  {
    var e := s.heap[o].e;
    s.(heap := s.heap[o := s.heap[o].(e := e.(isProcessing := true, retry := e.retry + 1))],
       flights := s.flights[fid := Flight(o, e.msg.Key(), nid, e.msg.dst)],
       h := s.h.(dispatched := s.h.dispatched + 1))
  }

  /** The callback of RouteMessage when the response code is Success. */
  ghost function ApplySuccess<O>(s: State<O>, fid: nat, txHash: string, txHeight: nat,
                                 writeOk: bool, deleteOk: bool): State<O>
    requires CanLand(s, fid)
  {
    var f := s.flights[fid];
    var s' := Landed(s, fid);
    if s.chains[f.dst].depth == 0 then
      Confirm(s', f.src, f.key, deleteOk)
    else if f.key !in s.chains[f.src].cache then s'
    else
      var o := s.chains[f.src].cache[f.key];
      if !writeOk then s'.(h := s.h.(stuck := s.h.stuck + {o}))
      else Watch(s', f.src, TxObject(f.key, s.heap[o].e.msg.height, txHash, txHeight), deleteOk)
  }

  /** CheckFinality copies the last block of the chain, and reads its tx objects. */
  ghost function ApplyScan<O>(s: State<O>, nid: string): State<O>
    requires nid in s.chains
  {
    s.(scan := TxScan(nid, s.chains[nid].lastBlock, set sl | sl in s.finality && sl.nid == nid :: s.finality[sl]))
  }

  /** The scan is done with this tx object. */
  ghost function Checked<O>(s: State<O>, t: TxObject): State<O> { s.(scan := s.scan.(left := s.scan.left - {t})) }

  /** CheckFinality may act on this tx object: for the last block that the scan saw, enough blocks lie
      above its transaction. */
  ghost predicate IsFinal<O>(s: State<O>, t: TxObject)
    requires s.scan.nid in s.chains
  {
    t.txHeight != 0 && Add64(t.txHeight, s.chains[s.scan.nid].depth) <= s.scan.height
  }

  /** The check deletes what is in the place of the tx object: it is final, the receipt query and the
      database answer, and the receipt is good or the source chain is there to generate the message again. */
  ghost predicate Deletes<O>(s: State<O>, t: TxObject, receipt: Answer<bool>, deleteOk: bool)
    requires s.scan.nid in s.chains
  {
    IsFinal(s, t) && receipt.Reply? && deleteOk && (receipt.value || t.key.src in s.chains)
  }

  /** One iteration of the inner loop of CheckFinality. It knows the tx object from the scan, and
      deletes what is in its place now. */
  ghost function ApplyCheck<O>(s: State<O>, t: TxObject, receipt: Answer<bool>, deleteOk: bool,
                               generated: Option<Message>, o: O): State<O>
    requires s.scan.nid in s.chains
  {
    var c := Checked(s, t);
    var s' := Withdraw(c, t);
    if !IsFinal(s, t) || receipt.Error? then c
    else if receipt.value then
      if deleteOk then s'.(h := s'.h.(confirmed := s'.h.confirmed + {t.key})) else c
    else if t.key.src !in s.chains || !deleteOk then c
    else if generated.None? then s'.(h := s'.h.(notRegenerated := s'.h.notRegenerated + {t.key}))
    else Insert(s', t.key.src, Fresh(generated.value), o)
  }

  // ---------- runs ----------

  ghost predicate ValidRun<O>(s: State<O>, steps: seq<Step<O>>)
    decreases |steps|
  {
    steps == [] || (Enabled(s, steps[0]) && ValidRun(Apply(s, steps[0]), steps[1..]))
  }

  ghost function Exec<O>(s: State<O>, steps: seq<Step<O>>): State<O>
    requires ValidRun(s, steps)
    decreases |steps|
  {
    if steps == [] then s else Exec(Apply(s, steps[0]), steps[1..])
  }

  /** A freshly started relayer on a database that an earlier session left behind. */
  ghost predicate Init<O>(s: State<O>)
  {
    && (forall n :: n in s.chains ==> InitChain(s.chains[n], n, s.blocks))
    && s.heap == map[] && s.flights == map[] && s.pending == multiset{} && s.scan.left == {}
    && (forall n :: n in s.blocks ==> s.blocks[n] < TWO64)
    && (forall sl :: sl in s.messages ==> StoredOk(sl, s.messages[sl], s.h.lostBefore))
    && (forall sl :: sl in s.finality ==> DstSlot(s.finality[sl].key) == sl)
    && s.h.known == (set sl | sl in s.messages :: s.messages[sl].msg.Key()) +
      (set sl | sl in s.finality :: s.finality[sl].key)
    && s.h == History(s.h.known, {}, {}, {}, 0, 0, s.h.lostBefore, {})
  }

  ghost predicate InitChain<O>(c: Chain<O>, n: string, blocks: map<string, nat>)
  {
    c.cache == map[] && c.lastBlock == 0 && c.lastSaved == (if n in blocks then blocks[n] else 0) && c.lastSaved < TWO64
  }

  /** What the message store may hold: an idle message after a whole number of rounds of
      three attempts; five rounds at most, unless `failures` writes were lost on the way. */
  ghost predicate StoredOk(sl: Slot, e: Entry, failures: nat)
  {
    SrcSlot(e.msg.Key()) == sl && !e.isProcessing &&
    3 <= e.retry && e.retry % 3 == 0 && e.retry <= 15 + 3 * failures
  }
}
