/** The relayer as the program has it: objects whose fields the steps update. Every method is one
    step of the state machine, or a loop of such steps; `Abs` is the state that the machine sees. */
module Relayer {
  import opened Types
  import opened RelaySpec
  import opened RelayFlush
  import opened RelayFrames
  import opened RelayInvariants
  import opened RelayNoLoss
  import opened RelayRuns

  /** getActiveMessagesFromStore, from what the scan of the store returned. */
  method GetActiveMessages(msgs: seq<Entry>) returns (active: seq<Entry>)
    ensures active == Active(msgs) && |active| == if Live(msgs) < 11 then Live(msgs) else 11
    ensures forall e :: e in active ==> e in msgs && e.retry < 15
  {
    active := [];
    for i := 0 to |msgs|
      invariant active == NotStale(msgs[..i]) && |active| <= MAX_FLUSH
    {
      NotStaleMore(msgs[..i], msgs[i]);
      assert msgs[..i] + [msgs[i]] == msgs[..i + 1];
      if !msgs[i].IsStale() { active := active + [msgs[i]]; }
      if |active| > MAX_FLUSH {
        NotStaleAppend(msgs[..i + 1], msgs[i + 1..]);
        assert msgs[..i + 1] + msgs[i + 1..] == msgs;
        ActiveIsLive(msgs);
        return;
      }
    }
    assert msgs[..|msgs|] == msgs;
    ActiveIsLive(msgs);
  }

  lemma {:induction false} InsertAllAppend<O>(s: State<O>, nid: string, es: seq<Entry>, os: seq<O>, e: Entry, o: O)
    requires nid in s.chains && |es| == |os|
    ensures nid in InsertAll(s, nid, es, os).chains
    ensures InsertAll(s, nid, es + [e], os + [o]) == Insert(InsertAll(s, nid, es, os), nid, e, o)
    decreases |es|
  {
    if es == [] {
      assert InsertAll(Insert(s, nid, e, o), nid, [], []) == Insert(s, nid, e, o);
      assert (es + [e])[1..] == [] && (os + [o])[1..] == [];
    } else {
      InsertAllAppend(Insert(s, nid, es[0], os[0]), nid, es[1..], os[1..], e, o);
      assert (es + [e])[1..] == es[1..] + [e] && (os + [o])[1..] == os[1..] + [o];
    }
  }

  ghost predicate AreNew<O>(os: seq<O>, objects: set<O>)
  {
    && (forall i :: 0 <= i < |os| ==> os[i] !in objects)
    && (forall i, j :: 0 <= i < j < |os| ==> os[i] != os[j])
  }

  /** The first `i` of the entries are in the cache, as new objects. */
  ghost predicate InAdd<O>(before: State<O>, nid: string, es: seq<Entry>, i: nat, os: seq<O>, now: State<O>)
  {
    && nid in before.chains && |os| == i <= |es| && now == InsertAll(before, nid, es[..i], os)
    && AreNew(os, before.heap.Keys) && before.heap.Keys <= now.heap.Keys && forall o :: o in os ==> o in now.heap
  }

  lemma AddedOne<O>(before: State<O>, nid: string, es: seq<Entry>, i: nat, os: seq<O>, s: State<O>, o: O)
    requires InAdd(before, nid, es, i, os, s) && i < |es| && o !in s.heap
    ensures nid in s.chains && InAdd(before, nid, es, i + 1, os + [o], Insert(s, nid, es[i], o))
  {
    InsertAllAppend(before, nid, es[..i], os, es[i], o);
    assert es[..i] + [es[i]] == es[..i + 1];
  }

  /** What the chains and the database answer about one message. */
  datatype Replies = Replies(willing: bool, received: Answer<bool>, deleteOk: bool)

  ghost predicate Answered<O>(step: Step<O>, env: MessageKey -> Replies)
  {
    step.Process? && Replies(step.willing, step.received, step.deleteOk) == env(step.k)
  }

  /** The steps process messages of one chain, and none of them twice. */
  ghost predicate AllProcess<O>(steps: seq<Step<O>>, nid: string, env: MessageKey -> Replies)
  {
    && (forall i :: 0 <= i < |steps| ==> Answered(steps[i], env) && steps[i].nid == nid)
    && (forall i, j :: 0 <= i < j < |steps| ==> steps[i].k != steps[j].k)
  }

  ghost predicate Tried<O>(steps: seq<Step<O>>, nid: string, k: MessageKey)
  {
    exists i :: 0 <= i < |steps| && steps[i].Process? && steps[i].nid == nid && steps[i].k == k
  }

  /** Where the loop over one cache is: `todo` are the keys that it has still to look at. */
  ghost predicate InLoop<O>(s: State<O>, steps: seq<Step<O>>, t: State<O>, nid: string, todo: set<MessageKey>,
                            env: MessageKey -> Replies)
  {
    && Reaches(s, steps, t) && AllProcess(steps, nid, env)
    && (forall i :: 0 <= i < |steps| ==> steps[i].k !in todo)
    && (forall k :: Cached(t, nid, k) ==> k in todo || Tried(steps, nid, k))
    && (forall n, k :: n != nid ==> (Cached(s, n, k) <==> Cached(t, n, k)))
  }

  lemma LoopSkips<O>(s: State<O>, steps: seq<Step<O>>, t: State<O>, nid: string, todo: set<MessageKey>,
                      env: MessageKey -> Replies, k: MessageKey)
    requires InLoop(s, steps, t, nid, todo, env) && !Cached(t, nid, k)
    ensures InLoop(s, steps, t, nid, todo - {k}, env)
  {
  }

  lemma LoopProcesses<O>(s: State<O>, steps: seq<Step<O>>, t: State<O>, todo: set<MessageKey>,
                         env: MessageKey -> Replies, nid: string, k: MessageKey, fid: nat)
    requires InLoop(s, steps, t, nid, todo, env) && k in todo
    requires Enabled(t, Process(nid, k, env(k).willing, env(k).received, env(k).deleteOk, fid))
    ensures InLoop(s, steps + [Process(nid, k, env(k).willing, env(k).received, env(k).deleteOk, fid)],
                   ApplyProcess(t, nid, k, env(k).willing, env(k).received, env(k).deleteOk, fid), nid, todo - {k}, env)
  {
    var Replies(willing, received, deleteOk) := env(k);
    var step := Process(nid, k, willing, received, deleteOk, fid);
    var more := steps + [step];
    var u := ApplyProcess(t, nid, k, willing, received, deleteOk, fid);
    ProcessNext(s, steps, t, nid, k, willing, received, deleteOk, fid);
    assert more[|steps|] == step;
    assert AllProcess(more, nid, env);
    ProcessKeepsOthers(t, nid, k, willing, received, deleteOk, fid);
    forall k' | Cached(u, nid, k') && k' !in todo - {k} ensures Tried(more, nid, k') {
      if k' == k {
        assert more[|steps|].k == k';
      } else {
        ProcessShrinks(t, nid, k, willing, received, deleteOk, fid, k');
        var i :| 0 <= i < |steps| && steps[i].Process? && steps[i].nid == nid && steps[i].k == k';
        assert more[i] == steps[i];
      }
    }
  }

  lemma ProcessShrinks<O>(t: State<O>, nid: string, k: MessageKey, willing: bool, received: Answer<bool>,
                          deleteOk: bool, fid: nat, k': MessageKey)
    requires Cached(t, nid, k) && t.chains[nid].cache[k] in t.heap
    ensures Cached(ApplyProcess(t, nid, k, willing, received, deleteOk, fid), nid, k') ==> Cached(t, nid, k')
  {
  }

  lemma ProcessKeepsOthers<O>(t: State<O>, nid: string, k: MessageKey, willing: bool, received: Answer<bool>,
                              deleteOk: bool, fid: nat)
    requires Cached(t, nid, k) && t.chains[nid].cache[k] in t.heap
    ensures forall n, k' :: n != nid ==>
      (Cached(ApplyProcess(t, nid, k, willing, received, deleteOk, fid), n, k') <==> Cached(t, n, k'))
  {
  }

  /** Where the loop over all chains is. */
  ghost predicate InChains<O>(s: State<O>, steps: seq<Step<O>>, t: State<O>, todo: set<string>,
                              env: MessageKey -> Replies)
  {
    && Reaches(s, steps, t)
    && (forall i :: 0 <= i < |steps| ==> Answered(steps[i], env) && steps[i].nid !in todo)
    && (forall i, j :: 0 <= i < j < |steps| && steps[i].nid == steps[j].nid ==> steps[i].k != steps[j].k)
    && (forall n, k :: Cached(t, n, k) ==> n in todo || Tried(steps, n, k))
  }

  lemma ChainDone<O>(s: State<O>, steps: seq<Step<O>>, t: State<O>, todo: set<string>, env: MessageKey -> Replies,
                     nid: string, more: seq<Step<O>>, u: State<O>)
    requires InChains(s, steps, t, todo, env) && nid in todo && InLoop(t, more, u, nid, {}, env)
    ensures InChains(s, steps + more, u, todo - {nid}, env)
  {
    RunJoin(s, steps, more);
    forall n, k | Cached(u, n, k) && n !in todo - {nid} ensures Tried(steps + more, n, k) {
      if n == nid {
        var i :| 0 <= i < |more| && more[i].Process? && more[i].nid == n && more[i].k == k;
        assert (steps + more)[|steps| + i] == more[i];
      } else {
        var i :| 0 <= i < |steps| && steps[i].Process? && steps[i].nid == n && steps[i].k == k;
        assert (steps + more)[i] == steps[i];
      }
    }
  }

  ghost predicate Flushed<O>(steps: seq<Step<O>>, nid: string) {
    exists i :: 0 <= i < |steps| && steps[i].Flush? && steps[i].nid == nid
  }

  /** Where flushMessages is: the chains that are done were flushed, or their scan failed. */
  ghost predicate InFlush<O>(s: State<O>, steps: seq<Step<O>>, t: State<O>, todo: set<string>, failed: set<string>)
  {
    && Reaches(s, steps, t) && todo <= t.chains.Keys && t.messages == s.messages
    && (forall i :: 0 <= i < |steps| ==> steps[i].Flush? && steps[i].nid !in todo && steps[i].nid !in failed)
    && (forall i, j :: 0 <= i < j < |steps| ==> steps[i].nid != steps[j].nid)
    && (forall n :: n in t.chains && n !in todo ==> n in failed || Flushed(steps, n))
  }

  lemma FlushedOne<O>(s: State<O>, steps: seq<Step<O>>, t: State<O>, todo: set<string>, failed: set<string>,
                      nid: string, listing: seq<Slot>, os: seq<O>)
    requires InFlush(s, steps, t, todo, failed) && nid in todo && nid !in failed && IsListing(t.messages, nid, listing)
    requires |os| == |Active(Entries(t.messages, listing))| && AreNew(os, t.heap.Keys)
    ensures InFlush(s, steps + [Flush(nid, listing, os)], InsertAll(t, nid, Active(Entries(t.messages, listing)), os),
      todo - {nid}, failed)
  {
    var step := Flush(nid, listing, os);
    var u := InsertAll(t, nid, Active(Entries(t.messages, listing)), os);
    FlushNext(s, steps, t, nid, listing, os);
    InsertAllFrame(t, nid, Active(Entries(t.messages, listing)), os);
    FlushAdds(s, steps, t, u, todo, failed, step);
  }

  lemma FlushAdds<O>(s: State<O>, steps: seq<Step<O>>, t: State<O>, u: State<O>, todo: set<string>, failed: set<string>,
                     step: Step<O>)
    requires InFlush(s, steps, t, todo, failed) && step.Flush? && step.nid in todo && step.nid !in failed
    requires Reaches(s, steps + [step], u) && u.chains.Keys == t.chains.Keys && u.messages == t.messages
    ensures InFlush(s, steps + [step], u, todo - {step.nid}, failed)
  {
    assert (steps + [step])[|steps|] == step;
    forall n | n in u.chains && n !in todo - {step.nid} && n !in failed ensures Flushed(steps + [step], n) {
      if n != step.nid {
        var i :| 0 <= i < |steps| && steps[i].Flush? && steps[i].nid == n;
        assert (steps + [step])[i] == steps[i];
      }
    }
  }

  lemma FlushFailed<O>(s: State<O>, steps: seq<Step<O>>, t: State<O>, todo: set<string>, failed: set<string>,
                       nid: string)
    requires InFlush(s, steps, t, todo, failed) && nid in failed
    ensures InFlush(s, steps, t, todo - {nid}, failed)
  {
  }

  /** What the chains and the database answer about one tx object. A message that is generated has
      the key that was asked for. */
  datatype CheckReplies = CheckReplies(receipt: Answer<bool>, deleteOk: bool, generated: Option<Payload>)

  datatype Payload = Payload(data: Bytes, height: nat) {
    function For(k: MessageKey): Message { Message(k.dst, k.src, k.sn, data, height, k.eventType) }
  }

  function Generated(p: Option<Payload>, k: MessageKey): Option<Message> {
    if p.None? then None else Some(p.value.For(k))
  }

  ghost predicate CheckAnswered<O>(step: Step<O>, r: CheckReplies)
  {
    step.CheckTx? && step.receipt == r.receipt && step.deleteOk == r.deleteOk &&
    var k := step.t.key;
    step.generated == match r.generated
                      case None => None
                      case Some(p) => Some(Message(k.dst, k.src, k.sn, p.data, p.height, k.eventType))
  }

  ghost predicate ScanOrCheck<O>(step: Step<O>, nids: set<string>, failed: set<string>, env: TxObject -> CheckReplies)
  {
    match step
    case ScanTx(nid) => nid !in nids && nid !in failed
    case CheckTx(t, _, _, _, _) => CheckAnswered(step, env(t))
    case _ => false
  }

  ghost predicate Scanned<O>(steps: seq<Step<O>>, nid: string) {
    exists i :: 0 <= i < |steps| && steps[i] == ScanTx(nid)
  }

  /** Where CheckFinality is: `nids` are the chains that it has still to scan. The chains that are
      done were scanned once, or their scan failed. */
  ghost predicate InCheck<O>(s: State<O>, steps: seq<Step<O>>, t: State<O>, nids: set<string>, failed: set<string>,
                             env: TxObject -> CheckReplies)
  {
    && Reaches(s, steps, t)
    && (forall i :: 0 <= i < |steps| ==> ScanOrCheck(steps[i], nids, failed, env))
    && (forall i, j :: 0 <= i < j < |steps| && steps[i].ScanTx? ==> steps[i] != steps[j])
    && (forall n :: n in t.chains && t.chains[n].depth > 0 && n !in nids && n !in failed ==> Scanned(steps, n))
  }

  lemma CheckSkips<O>(s: State<O>, steps: seq<Step<O>>, t: State<O>, nids: set<string>, failed: set<string>,
                      env: TxObject -> CheckReplies, nid: string)
    requires InCheck(s, steps, t, nids, failed, env) && (nid in failed || (nid in t.chains && t.chains[nid].depth == 0))
    ensures InCheck(s, steps, t, nids - {nid}, failed, env)
  {
    forall i | 0 <= i < |steps| ensures ScanOrCheck(steps[i], nids - {nid}, failed, env) {
      assert ScanOrCheck(steps[i], nids, failed, env);
    }
  }

  lemma ScannedMore<O>(steps: seq<Step<O>>, step: Step<O>, nid: string)
    ensures Scanned(steps + [step], nid) <==> Scanned(steps, nid) || step == ScanTx(nid)
  {
    var more := steps + [step];
    if Scanned(steps, nid) {
      var i :| 0 <= i < |steps| && steps[i] == ScanTx(nid);
      assert more[i] == steps[i];
    }
    if step == ScanTx(nid) { assert more[|steps|] == step; }
  }

  lemma ScannedOne<O>(s: State<O>, steps: seq<Step<O>>, t: State<O>, nids: set<string>, failed: set<string>,
                      env: TxObject -> CheckReplies, nid: string)
    requires InCheck(s, steps, t, nids, failed, env) && nid in nids && nid !in failed && Enabled(t, ScanTx(nid))
    ensures InCheck(s, steps + [ScanTx(nid)], ApplyScan(t, nid), nids - {nid}, failed, env)
  {
    var more := steps + [ScanTx(nid)];
    ScanNext(s, steps, t, nid);
    forall i | 0 <= i < |more| ensures ScanOrCheck(more[i], nids - {nid}, failed, env) {
      if i < |steps| { assert ScanOrCheck(steps[i], nids, failed, env); }
    }
    forall i, j | 0 <= i < j < |more| && more[i].ScanTx? ensures more[i] != more[j] {
      assert ScanOrCheck(steps[i], nids, failed, env);
    }
    forall n ensures Scanned(more, n) <==> Scanned(steps, n) || n == nid { ScannedMore(steps, ScanTx(nid), n); }
  }

  lemma CheckKeepsChains<O>(t: State<O>, x: TxObject, receipt: Answer<bool>, deleteOk: bool,
                            generated: Option<Message>, o: O)
    requires t.scan.nid in t.chains
    ensures var u := ApplyCheck(t, x, receipt, deleteOk, generated, o);
      u.chains.Keys == t.chains.Keys && forall n :: n in t.chains ==> u.chains[n].depth == t.chains[n].depth
  {
  }

  lemma CheckedOne<O>(s: State<O>, steps: seq<Step<O>>, t: State<O>, nids: set<string>, failed: set<string>,
                      env: TxObject -> CheckReplies, x: TxObject, o: O)
    requires InCheck(s, steps, t, nids, failed, env) && x in t.scan.left && o !in t.heap
    requires t.scan.nid in t.chains && t.chains[t.scan.nid].depth > 0
    ensures var r := env(x); var generated := Generated(r.generated, x.key);
      InCheck(s, steps + [Step.CheckTx(x, r.receipt, r.deleteOk, generated, o)],
              ApplyCheck(t, x, r.receipt, r.deleteOk, generated, o), nids, failed, env)
  {
    var r := env(x);
    var generated := Generated(r.generated, x.key);
    var step := Step.CheckTx(x, r.receipt, r.deleteOk, generated, o);
    var more := steps + [step];
    CheckNext(s, steps, t, x, r.receipt, r.deleteOk, generated, o);
    CheckKeepsChains(t, x, r.receipt, r.deleteOk, generated, o);
    forall i | 0 <= i < |more| ensures ScanOrCheck(more[i], nids, failed, env) {
      if i < |steps| { assert ScanOrCheck(steps[i], nids, failed, env); }
    }
    forall n ensures Scanned(more, n) <==> Scanned(steps, n) { ScannedMore(steps, step, n); }
  }

  /** The first `i` of the messages are merged, and no longer pending. */
  ghost predicate InMerge<O>(s: State<O>, steps: seq<Step<O>>, t: State<O>, ms: seq<Message>, i: nat)
  {
    && Reaches(s, steps, t) && i <= |ms| && t.pending == s.pending - multiset(ms[..i])
    && |steps| == i && forall j :: 0 <= j < i ==> steps[j].Merge? && steps[j].m == ms[j]
  }

  lemma MergedOne<O>(s: State<O>, steps: seq<Step<O>>, t: State<O>, ms: seq<Message>, i: nat, o: O)
    requires InMerge(s, steps, t, ms, i) && i < |ms| && multiset(ms) <= s.pending && o !in t.heap
    requires ms[i].src in t.chains
    ensures ms[i] in t.pending
    ensures InMerge(s, steps + [Merge(ms[i], o)],
      Insert(t.(pending := t.pending - multiset{ms[i]}), ms[i].src, Fresh(ms[i]), o), ms, i + 1)
  {
    StillPending(s.pending, ms, i);
    MergeNext(s, steps, t, ms[i], o);
  }

  lemma StillPending(pending: multiset<Message>, ms: seq<Message>, i: nat)
    requires i < |ms| && multiset(ms) <= pending
    ensures var rest := pending - multiset(ms[..i]);
      ms[i] in rest && rest - multiset{ms[i]} == pending - multiset(ms[..i + 1])
  {
    assert ms == ms[..i] + [ms[i]] + ms[i + 1..];
    assert ms[..i + 1] == ms[..i] + [ms[i]];
  }

  /** What may happen to a relayer, with the answers that it gets: a block from a listener, the
      goroutine that merges its messages, the three tickers, the parts of a finality tick one by one,
      and the ends of the attempts in the air. */
  datatype Event =
    | BlockArrives(nid: string, height: nat, msgs: seq<Message>, writeOk: bool)
    | MergeRuns(nid: string, msgs: seq<Message>)
    | RouteTick(replies: MessageKey -> Replies)
    | FlushTick(countOk: bool, failing: set<string>)
    | FinalityTick(failing: set<string>, answers: TxObject -> CheckReplies)
    | ScanRuns(nid: string)
    | CheckRuns(t: TxObject, answer: CheckReplies)
    | RouteErrs(fid: nat, storeOk: bool)
    | Fails(fid: nat, storeOk: bool)
    | Succeeds(fid: nat, txHash: string, txHeight: nat, writeOk: bool, deleteOk: bool)

  ghost predicate Took<O>(s: State<O>, steps: seq<Step<O>>, t: State<O>, possible: bool, step: Step<O>)
  {
    Reaches(s, steps, t) && steps == if possible then [step] else []
  }

  predicate OwnMessages(nid: string, msgs: seq<Message>) { forall m :: m in msgs ==> m.src == nid }

  /** The steps that one event stands for. */
  ghost predicate Handled<O>(e: Event, s: State<O>, steps: seq<Step<O>>, t: State<O>)
  {
    match e
    case BlockArrives(nid, height, msgs, writeOk) =>
      Took(s, steps, t, nid in s.chains && height < TWO64 && OwnMessages(nid, msgs),
           ProcessBlock(nid, height, msgs, writeOk))
    case MergeRuns(nid, msgs) =>
      if nid in s.chains && multiset(msgs) <= s.pending && OwnMessages(nid, msgs) then
        InMerge(s, steps, t, msgs, |msgs|)
      else Reaches(s, steps, t) && steps == []
    case RouteTick(replies) => InChains(s, steps, t, {}, replies)
    case FlushTick(countOk, failing) =>
      if countOk && s.messages != map[] then InFlush(s, steps, t, {}, failing) else Reaches(s, steps, t) && steps == []
    case FinalityTick(failing, answers) =>
      if s.scan.left == {} then InCheck(s, steps, t, {}, failing, answers) && t.scan.left == {}
      else Reaches(s, steps, t) && steps == []
    case ScanRuns(nid) =>
      Took(s, steps, t, nid in s.chains && s.chains[nid].depth > 0 && s.scan.left == {}, ScanTx(nid))
    case CheckRuns(x, answer) =>
      Reaches(s, steps, t) &&
      if x in s.scan.left && s.scan.nid in s.chains && s.chains[s.scan.nid].depth > 0
      then |steps| == 1 && CheckAnswered(steps[0], answer) && steps[0].t == x
      else steps == []
    case RouteErrs(fid, storeOk) => Took(s, steps, t, fid in s.flights, RouteError(fid, storeOk))
    case Fails(fid, storeOk) => Took(s, steps, t, fid in s.flights, CallbackFailure(fid, storeOk))
    case Succeeds(fid, txHash, txHeight, writeOk, deleteOk) =>
      Took(s, steps, t, fid in s.flights, CallbackSuccess(fid, txHash, txHeight, writeOk, deleteOk))
  }

  lemma HandledReaches<O>(e: Event, s: State<O>, steps: seq<Step<O>>, t: State<O>)
    requires Handled(e, s, steps, t)
    ensures Reaches(s, steps, t)
  {
  }

  ghost predicate Told<O>(events: seq<Event>, trace: seq<State<O>>, parts: seq<seq<Step<O>>>)
  {
    |trace| == |events| + 1 && |parts| == |events| &&
    forall i :: 0 <= i < |events| ==> Handled(events[i], trace[i], parts[i], trace[i + 1])
  }

  lemma ToldMore<O>(events: seq<Event>, n: nat, trace: seq<State<O>>, parts: seq<seq<Step<O>>>, more: seq<Step<O>>,
                    t: State<O>)
    requires n < |events| && Told(events[..n], trace, parts) && Handled(events[n], trace[n], more, t)
    ensures Told(events[..n + 1], trace + [t], parts + [more])
  {
    forall i | 0 <= i < n + 1
      ensures Handled(events[..n + 1][i], (trace + [t])[i], (parts + [more])[i], (trace + [t])[i + 1])
    {
      if i < n { assert Handled(events[..n][i], trace[i], parts[i], trace[i + 1]); }
    }
  }

  class RouteMessage {
    const msg: Message
    var retry: nat
    var isProcessing: bool
    ghost var start: nat
    ghost var failedWrites: nat

    ghost function Abs(): Cell
      reads this
    {
      Cell(Entry(msg, retry, isProcessing), start, failedWrites)
    }

    ghost constructor Unused()
    {
      msg, retry, isProcessing, start, failedWrites := Message("", "", 0, [], 0, ""), 0, false, 0, 0;
    }

    constructor (e: Entry)
      ensures Abs() == Cell(e, e.retry, 0)
    {
      msg, retry, isProcessing, start, failedWrites := e.msg, e.retry, e.isProcessing, e.retry, 0;
    }

    method SetIsProcessing(b: bool)
      modifies this`isProcessing
      ensures isProcessing == b
    {
      isProcessing := b;
    }

    method IncrementRetry()
      modifies this`retry
      ensures retry == old(retry) + 1
    {
      retry := retry + 1;
    }

    method BeginAttempt()
      modifies this`isProcessing, this`retry
      ensures Abs() == old(Abs()).(e := Entry(msg, old(retry) + 1, true))
    {
      SetIsProcessing(true);
      IncrementRetry();
    }
  }

  class MessageCache {
    ghost const owner: string
    var messages: map<MessageKey, RouteMessage>

    constructor (ghost owner: string)
      ensures messages == map[] && this.owner == owner
    {
      this.owner, messages := owner, map[];
    }

    method Add(r: RouteMessage)
      modifies this
      ensures messages == old(messages)[r.msg.Key() := r]
    {
      messages := messages[r.msg.Key() := r];
    }

    method Remove(k: MessageKey)
      modifies this
      ensures messages == old(messages) - {k}
    {
      messages := messages - {k};
    }
  }

  class ChainRuntime {
    const nid: string
    const depth: nat      // FinalityBlock of the provider
    const cache: MessageCache
    var lastBlock: nat
    var lastSaved: nat

    ghost function Abs(): Chain<RouteMessage>
      reads this, cache
    {
      Chain(depth, lastBlock, lastSaved, cache.messages)
    }

    constructor (nid: string, depth: nat, lastSaved: nat)
      ensures this.nid == nid && Abs() == Chain(depth, 0, lastSaved, map[]) && fresh(cache) && cache.owner == nid
    {
      this.nid, this.depth, this.lastBlock, this.lastSaved := nid, depth, 0, lastSaved;
      cache := new MessageCache(nid);
    }

    /** The new heights, and whether the block store gets the height. */
    method SetHeights(height: nat, messageCount: nat) returns (save: bool)
      requires lastSaved < TWO64 && height < TWO64
      modifies this
      ensures save == old(MustSave(lastSaved, height, messageCount))
      ensures Abs() == old(Abs()).(lastBlock := height, lastSaved := if save then height else old(lastSaved))
    {
      lastBlock := height;
      save := messageCount > 0 || Sub64(height, lastSaved) > SAVE_AFTER;
      if save { lastSaved := height; }
    }
  }

  method NewChainRuntimes(depths: map<string, nat>, saved: map<string, nat>)
    returns (runtimes: map<string, ChainRuntime>)
    ensures runtimes.Keys == depths.Keys && fresh(runtimes.Values)
    ensures forall n :: n in runtimes ==>
      fresh(runtimes[n].cache) && runtimes[n].nid == n && runtimes[n].cache.owner == n
    ensures forall n :: n in runtimes ==>
      runtimes[n].Abs() == Chain(depths[n], 0, if n in saved then saved[n] else 0, map[])
  {
    runtimes := map[];
    var todo := depths.Keys;
    while todo != {}
      invariant todo <= depths.Keys && runtimes.Keys == depths.Keys - todo && fresh(runtimes.Values)
      invariant forall n :: n in runtimes ==>
        fresh(runtimes[n].cache) && runtimes[n].nid == n && runtimes[n].cache.owner == n
      invariant forall n :: n in runtimes ==>
        runtimes[n].Abs() == Chain(depths[n], 0, if n in saved then saved[n] else 0, map[])
    {
      var n :| n in todo;
      var c := new ChainRuntime(n, depths[n], if n in saved then saved[n] else 0);
      runtimes := runtimes[n := c];
      todo := todo - {n};
    }
  }

  ghost predicate StoresReadable(messages: map<Slot, Entry>, finality: map<Slot, TxObject>, blocks: map<string, nat>,
                                 lostBefore: nat)
  {
    && (forall sl :: sl in messages ==> StoredOk(sl, messages[sl], lostBefore))
    && (forall sl :: sl in finality ==> DstSlot(finality[sl].key) == sl)
    && (forall n :: n in blocks ==> blocks[n] < TWO64)
  }

  ghost function KnownIn(messages: map<Slot, Entry>, finality: map<Slot, TxObject>): set<MessageKey>
  {
    (set sl | sl in messages :: messages[sl].msg.Key()) + (set sl | sl in finality :: finality[sl].key)
  }

  class Relayer {
    const chains: map<string, ChainRuntime>
    var messages: map<Slot, Entry>
    var finality: map<Slot, TxObject>
    var blocks: map<string, nat>
    var pending: multiset<Message>                   // handed to a mergeMessages goroutine
    var flights: map<nat, Flight<RouteMessage>>      // running RouteMessage goroutines
    var scan: TxScan                                   // what CheckFinality works on
    var nextFid: nat                                 // names them
    ghost var objects: set<RouteMessage>             // that were ever put in a cache
    ghost const unused: RouteMessage                 // stands in steps that make no object
    ghost var h: History<RouteMessage>

    ghost predicate Valid()
      reads this, chains.Values, set n | n in chains :: chains[n].cache
    {
      && (forall n :: n in chains ==> chains[n].nid == n && chains[n].cache.owner == n)
      && (forall n, k :: n in chains && k in chains[n].cache.messages ==> chains[n].cache.messages[k] in objects)
      && (forall i :: i in flights ==> i < nextFid) && unused !in objects
    }

    ghost function Chains(): map<string, Chain<RouteMessage>>
      reads chains.Values, set n | n in chains :: chains[n].cache
    {
      map n | n in chains :: chains[n].Abs()
    }

    ghost function Heap(): map<RouteMessage, Cell>
      reads this`objects, objects
    {
      map o | o in objects :: o.Abs()
    }

    ghost function Abs(): State<RouteMessage>
      reads this, objects, chains.Values, set n | n in chains :: chains[n].cache
    {
      State(Chains(), Heap(), pending, messages, finality, blocks, flights, scan, h)
    }

    /** NewRelayer: the heights are read back from the block store. */
    constructor (clear: bool, depths: map<string, nat>, messages: map<Slot, Entry>, finality: map<Slot, TxObject>,
                 blocks: map<string, nat>, ghost lostBefore: nat)
      requires !clear ==> StoresReadable(messages, finality, blocks, lostBefore)
      ensures Valid() && fresh(chains.Values) && chains.Keys == depths.Keys && Init(Abs())
      ensures forall n :: n in depths ==> fresh(chains[n].cache) && chains[n].depth == depths[n]
      ensures clear ==> this.messages == map[] && this.finality == map[] && this.blocks == map[]
      ensures !clear ==> this.messages == messages && this.finality == finality && this.blocks == blocks
    {
      var saved: map<string, nat> := if clear then map[] else blocks;
      this.messages := if clear then map[] else messages;
      this.finality := if clear then map[] else finality;
      this.blocks := saved;
      unused := new RouteMessage.Unused();
      pending, flights, scan, nextFid, objects := multiset{}, map[], TxScan("", 0, {}), 0, {};
      var runtimes := NewChainRuntimes(depths, saved);
      chains := runtimes;
      h := History((if clear then {} else KnownIn(messages, finality)), {}, {}, {}, 0, 0,
                   if clear then 0 else lostBefore, {});
      new;
      assert Heap() == map[];
      forall n | n in Chains() ensures InitChain(Chains()[n], n, this.blocks) {
        assert runtimes[n].Abs() == Chains()[n];
      }
    }

    /** A new object. */
    method Make(e: Entry) returns (o: RouteMessage)
      requires Valid()
      modifies this`objects
      ensures Valid() && fresh(o) && objects == old(objects) + {o} && o.msg == e.msg
      ensures Heap() == old(Heap())[o := Cell(e, e.retry, 0)] && Chains() == old(Chains())
    {
      o := new RouteMessage(e);
      objects := objects + {o};
    }

    method PutInCache(nid: string, o: RouteMessage)
      requires Valid() && nid in chains && o in objects
      modifies chains[nid].cache
      ensures Valid() && Heap() == old(Heap())
      ensures Chains() == old(Chains())[nid := old(Chains())[nid].(cache := old(Chains())[nid].cache[o.msg.Key() := o])]
    {
      chains[nid].cache.Add(o);
    }

    /** MessageCache.Add of a new object. */
    method Add(nid: string, e: Entry) returns (o: RouteMessage)
      requires Valid() && nid in chains
      modifies this`objects, chains[nid].cache
      ensures Valid() && fresh(o) && objects == old(objects) + {o} && Abs() == Insert(old(Abs()), nid, e, o)
    {
      o := Make(e);
      PutInCache(nid, o);
    }

    method RemoveFromCache(nid: string, k: MessageKey)
      requires Valid() && nid in chains
      modifies chains[nid].cache
      ensures Valid() && Heap() == old(Heap())
      ensures Chains() == old(Chains())[nid := old(Chains())[nid].(cache := old(Chains())[nid].cache - {k})]
    {
      chains[nid].cache.Remove(k);
    }

    /** ClearMessages; every caller passes one key. */
    method ClearMessages(nid: string, k: MessageKey, deleteOk: bool)
      requires Valid() && nid in chains
      modifies this`messages, chains[nid].cache
      ensures Valid() && Abs() == Clear(old(Abs()), nid, k, deleteOk)
    {
      RemoveFromCache(nid, k);
      if deleteOk { messages := messages - {SrcSlot(k)}; }
    }

    /** SetIsProcessing of one object. */
    method SetProcessing(o: RouteMessage, b: bool)
      requires Valid() && o in objects
      modifies o`isProcessing
      ensures Valid() && Chains() == old(Chains())
      ensures Heap() == old(Heap())[o := old(o.Abs()).(e := old(o.Abs()).e.(isProcessing := b))]
    {
      o.SetIsProcessing(b);
    }

    method BeginAttempt(o: RouteMessage)
      requires Valid() && o in objects
      modifies o`isProcessing, o`retry
      ensures Valid() && Chains() == old(Chains())
      ensures Heap() == old(Heap())[o := old(o.Abs()).(e := Entry(o.msg, old(o.retry) + 1, true))]
    {
      o.BeginAttempt();
    }

    /** HandleMessageFailed. */
    method HandleMessageFailed(o: RouteMessage, src: string, storeOk: bool)
      requires Valid() && o in objects && src in chains
      modifies o`isProcessing, o`failedWrites, this`messages, this`h, chains[src].cache
      ensures Valid() && Abs() == Fail(old(Abs()), o, src, storeOk)
    {
      SetProcessing(o, false);
      if o.retry != 0 && o.retry % 3 == 0 {
        if !storeOk {
          NoteLostWrite(o);
          return;
        }
        MoveToStore(o, src);
      }
    }

    /** StoreMessage succeeded, and the message leaves the cache. */
    method MoveToStore(o: RouteMessage, src: string)
      requires Valid() && o in objects && src in chains
      modifies this`messages, chains[src].cache
      ensures Valid() && Abs() == Shelve(old(Abs()), o, src)
    {
      Store(o);
      RemoveFromCache(src, o.msg.Key());
    }

    ghost method Note(h': History<RouteMessage>)
      requires Valid()
      modifies this`h
      ensures Valid() && Heap() == old(Heap()) && Chains() == old(Chains()) && h == h'
    {
      h := h';
    }

    ghost method CountLostWrite(o: RouteMessage)
      requires Valid() && o in objects
      modifies o`failedWrites
      ensures Valid() && Chains() == old(Chains())
      ensures Heap() == old(Heap())[o := old(o.Abs()).(failedWrites := old(o.failedWrites) + 1)]
    {
      o.failedWrites := o.failedWrites + 1;
    }

    ghost method NoteLostWrite(o: RouteMessage)
      requires Valid() && o in objects
      modifies o`failedWrites, this`h
      ensures Valid() && Abs() == LoseWrite(old(Abs()), o)
    {
      CountLostWrite(o);
      Note(h.(writeFailures := h.writeFailures + 1));
    }

    /** StoreMessage. */
    method Store(o: RouteMessage)
      requires Valid() && o in objects
      modifies this`messages
      ensures Valid() && Heap() == old(Heap()) && Chains() == old(Chains())
      ensures messages == old(messages)[SrcSlot(o.msg.Key()) := Entry(o.msg, o.retry, o.isProcessing)]
    {
      messages := messages[SrcSlot(o.msg.Key()) := Entry(o.msg, o.retry, o.isProcessing)];
    }

    /** A goroutine is started. */
    method Go(f: Flight<RouteMessage>)
      requires Valid()
      modifies this`flights, this`nextFid, this`h
      ensures Valid() && Heap() == old(Heap()) && Chains() == old(Chains())
      ensures flights == old(flights)[old(nextFid) := f] && h == old(h).(dispatched := old(h.dispatched) + 1)
    {
      flights, nextFid, h := flights[nextFid := f], nextFid + 1, h.(dispatched := h.dispatched + 1);
    }

    /** The start of RouteMessage. */
    method StartRoute(nid: string, o: RouteMessage)
      requires Valid() && o in objects && nid in chains
      modifies o`isProcessing, o`retry, this`flights, this`nextFid, this`h
      ensures Valid() && Abs() == Launch(old(Abs()), nid, o, old(nextFid))
    {
      BeginAttempt(o);
      Go(Flight(o, o.msg.Key(), nid, o.msg.dst));
    }

    /** A goroutine ends. */
    method Land(fid: nat)
      requires Valid()
      modifies this`flights
      ensures Valid() && Abs() == Landed(old(Abs()), fid)
    {
      flights := flights - {fid};
    }

    /** Route returned an error. */
    method RouteFails(fid: nat, storeOk: bool)
      requires Valid() && CanLand(Abs(), fid)
      modifies this`flights, this`messages, this`h, flights[fid].obj, chains[flights[fid].src].cache
      ensures Valid() && Abs() == Fail(Landed(old(Abs()), fid), old(flights)[fid].obj, old(flights)[fid].src, storeOk)
    {
      var f := flights[fid];
      Land(fid);
      HandleMessageFailed(f.obj, f.src, storeOk);
    }

    /** The callback, when the response code is not Success. It looks the message up in the cache. */
    method CallbackFails(fid: nat, storeOk: bool)
      requires Valid() && CanLand(Abs(), fid)
      modifies this`flights, this`messages, this`h, objects, chains[flights[fid].src].cache
      ensures Valid() && var f := old(flights)[fid]; var s := old(Abs());
        Abs() == if f.key in s.chains[f.src].cache
                 then Fail(Landed(s, fid), s.chains[f.src].cache[f.key], f.src, storeOk)
                 else Landed(s, fid)
    {
      var f := flights[fid];
      Land(fid);
      if f.key !in chains[f.src].cache.messages { return; }
      HandleMessageFailed(chains[f.src].cache.messages[f.key], f.src, storeOk);
    }

    /** StoreTxObject. */
    method StoreTx(t: TxObject)
      requires Valid()
      modifies this`finality
      ensures Valid() && Abs() == old(Abs()).(finality := old(finality)[DstSlot(t.key) := t])
    {
      finality := finality[DstSlot(t.key) := t];
    }

    ghost method NoteStuck(o: RouteMessage)
      requires Valid()
      modifies this`h
      ensures Valid() && Abs() == old(Abs()).(h := old(h).(stuck := old(h.stuck) + {o}))
    {
      Note(h.(stuck := h.stuck + {o}));
    }

    /** The callback, when the response code is Success. */
    method CallbackSucceeds(fid: nat, txHash: string, txHeight: nat, writeOk: bool, deleteOk: bool)
      requires Valid() && CanLand(Abs(), fid)
      modifies this`flights, this`messages, this`finality, this`h, chains[flights[fid].src].cache
      ensures Valid() && Abs() == ApplySuccess(old(Abs()), fid, txHash, txHeight, writeOk, deleteOk)
    {
      var f := flights[fid];
      Land(fid);
      if chains[f.dst].depth > 0 {
        if f.key !in chains[f.src].cache.messages { return; }
        var o := chains[f.src].cache.messages[f.key];
        if !writeOk {
          NoteStuck(o);
          return;
        }
        StoreTx(TxObject(f.key, o.msg.height, txHash, txHeight));
        ClearMessages(f.src, f.key, deleteOk);
      } else {
        ClearConfirmed(f.src, f.key, deleteOk);
      }
    }

    method SetHeights(nid: string, height: nat, messageCount: nat) returns (save: bool)
      requires Valid() && nid in chains && chains[nid].lastSaved < TWO64 && height < TWO64
      modifies chains[nid]
      ensures Valid() && Heap() == old(Heap())
      ensures save == MustSave(old(Chains())[nid].lastSaved, height, messageCount)
      ensures var c := old(Chains())[nid];
        Chains() == old(Chains())[nid := c.(lastBlock := height, lastSaved := if save then height else c.lastSaved)]
    {
      save := chains[nid].SetHeights(height, messageCount);
    }

    method RecordBlock(nid: string, height: nat, msgs: seq<Message>, store: bool)
      requires Valid()
      modifies this`blocks, this`pending, this`h
      ensures Valid() && Heap() == old(Heap()) && Chains() == old(Chains())
      ensures blocks == if store then old(blocks)[nid := height] else old(blocks)
      ensures pending == old(pending) + multiset(msgs)
      ensures h == old(h).(known := old(h.known) + set m | m in msgs :: m.Key())
    {
      blocks, pending, h := if store then blocks[nid := height] else blocks, pending + multiset(msgs),
        h.(known := h.known + set m | m in msgs :: m.Key());
    }

    method ProcessBlockInfo(nid: string, height: nat, msgs: seq<Message>, writeOk: bool)
      requires Valid() && nid in chains && chains[nid].lastSaved < TWO64 && height < TWO64
      modifies chains[nid], this`blocks, this`pending, this`h
      ensures Valid() && Abs() == ApplyBlock(old(Abs()), nid, height, msgs, writeOk)
    {
      var save := SetHeights(nid, height, |msgs|);
      RecordBlock(nid, height, msgs, save && writeOk);
    }

    method DropUnknown(nid: string, k: MessageKey, deleteOk: bool)
      requires Valid() && nid in chains
      modifies this`messages, this`h, chains[nid].cache
      ensures Valid() && Abs() == Clear(old(Abs().(h := h.(unknownDst := h.unknownDst + {k}))), nid, k, deleteOk)
    {
      Note(h.(unknownDst := h.unknownDst + {k}));
      ClearMessages(nid, k, deleteOk);
    }

    method ClearConfirmed(nid: string, k: MessageKey, deleteOk: bool)
      requires Valid() && nid in chains
      modifies this`messages, this`h, chains[nid].cache
      ensures Valid() && Abs() == Confirm(old(Abs()), nid, k, deleteOk)
    {
      Note(h.(confirmed := h.confirmed + {k}));
      ClearMessages(nid, k, deleteOk);
    }

    /** One message of a mergeMessages goroutine. */
    method MergeMessage(m: Message) returns (o: RouteMessage)
      requires Valid() && m in pending && m.src in chains
      modifies this`pending, this`objects, chains[m.src].cache
      ensures Valid() && fresh(o) && objects == old(objects) + {o}
      ensures Abs() == Insert(old(Abs()).(pending := old(pending) - multiset{m}), m.src, Fresh(m), o)
    {
      TakePending(m);
      o := Add(m.src, Fresh(m));
    }

    method TakePending(m: Message)
      requires Valid()
      modifies this`pending
      ensures Valid() && Heap() == old(Heap()) && Chains() == old(Chains()) && pending == old(pending) - multiset{m}
    {
      pending := pending - multiset{m};
    }

    /** A scan of the message store for one chain, in some order. */
    method ScanMessages(nid: string) returns (listing: seq<Slot>)
      ensures IsListing(messages, nid, listing)
    {
      listing := [];
      var todo := messages.Keys;
      while todo != {}
        invariant forall i, j :: 0 <= i < j < |listing| ==> listing[i] != listing[j]
        invariant forall sl :: sl in listing <==> sl in messages && sl !in todo && sl.nid == nid
        invariant todo <= messages.Keys
      {
        var sl :| sl in todo;
        if sl.nid == nid { listing := listing + [sl]; }
        todo := todo - {sl};
      }
    }

    /** MessageCache.Add of each message. */
    method AddAll(nid: string, es: seq<Entry>) returns (ghost os: seq<RouteMessage>)
      requires Valid() && nid in chains
      modifies this`objects, chains[nid].cache
      ensures Valid() && old(objects) <= objects && forall o :: o in objects && o !in old(objects) ==> fresh(o)
      ensures |os| == |es| && AreNew(os, old(objects)) && Abs() == InsertAll(old(Abs()), nid, es, os)
    {
      os := [];
      ghost var before := Abs();
      ghost var was := objects;
      for i := 0 to |es|
        invariant Valid() && InAdd(before, nid, es, i, os, Abs())
        invariant was <= objects && forall o :: o in objects && o !in was ==> fresh(o)
      {
        os := AddNext(nid, es, i, before, os);
      }
      assert es[..|es|] == es;
    }

    method AddNext(nid: string, es: seq<Entry>, i: nat, ghost before: State<RouteMessage>, ghost os: seq<RouteMessage>)
      returns (ghost os': seq<RouteMessage>)
      requires Valid() && nid in chains && i < |es| && InAdd(before, nid, es, i, os, Abs())
      modifies this`objects, chains[nid].cache
      ensures Valid() && old(objects) <= objects && forall o :: o in objects && o !in old(objects) ==> fresh(o)
      ensures InAdd(before, nid, es, i + 1, os', Abs())
    {
      ghost var s := Abs();
      var o := Add(nid, es[i]);
      AddedOne(before, nid, es, i, os, s, o);
      os' := os + [o];
    }

    /** flushMessages, for one chain. */
    method FlushChain(nid: string, listing: seq<Slot>) returns (ghost os: seq<RouteMessage>)
      requires Valid() && nid in chains && IsListing(messages, nid, listing)
      modifies this`objects, chains[nid].cache
      ensures Valid() && old(objects) <= objects && forall o :: o in objects && o !in old(objects) ==> fresh(o)
      ensures var es := Active(Entries(messages, listing));
        |os| == |es| && AreNew(os, old(objects)) && Abs() == InsertAll(old(Abs()), nid, es, os)
    {
      ghost var listed := Entries(messages, listing);
      var es := GetActiveMessages(Entries(messages, listing));
      os := AddAll(nid, es);
      assert es == Active(listed);
    }

    /** DeleteTxObject. */
    method DeleteTx(t: TxObject)
      requires Valid()
      modifies this`finality
      ensures Valid() && Abs() == Withdraw(old(Abs()), t)
    {
      finality := finality - {DstSlot(t.key)};
    }

    /** CheckFinality copies the last block of a chain, and reads its tx objects. */
    method ScanTx(nid: string)
      requires Valid() && nid in chains
      modifies this`scan
      ensures Valid() && Abs() == ApplyScan(old(Abs()), nid)
    {
      scan := TxScan(nid, chains[nid].lastBlock, set sl | sl in finality && sl.nid == nid :: finality[sl]);
    }

    method MarkChecked(t: TxObject)
      requires Valid()
      modifies this`scan
      ensures Valid() && Abs() == Checked(old(Abs()), t)
    {
      scan := scan.(left := scan.left - {t});
    }

    /** The inner loop of CheckFinality, for one tx object of the scan. */
    method CheckTx(t: TxObject, receipt: Answer<bool>, deleteOk: bool, generated: Option<Message>)
      returns (ghost o: RouteMessage)
      requires Valid() && scan.nid in chains
      modifies this`scan, this`finality, this`objects, this`h, set n | n in chains :: chains[n].cache
      ensures Valid() && o !in old(objects) && old(objects) <= objects
      ensures forall p :: p in objects && p !in old(objects) ==> fresh(p)
      ensures Abs() == ApplyCheck(old(Abs()), t, receipt, deleteOk, generated, o)
      ensures scan == old(scan).(left := old(scan).left - {t})
    {
      o := unused;
      var c := chains[scan.nid];
      var latestHeight := scan.height;
      MarkChecked(t);
      if t.txHeight == 0 { return; }
      if Add64(t.txHeight, c.depth) > latestHeight { return; }
      if receipt.Error? { return; }
      if receipt.value {
        if deleteOk {
          DeleteTx(t);
          Note(h.(confirmed := h.confirmed + {t.key}));
        }
        return;
      }
      if t.key.src !in chains { return; }
      if !deleteOk { return; }
      DeleteTx(t);
      if generated.None? {
        Note(h.(notRegenerated := h.notRegenerated + {t.key}));
        return;
      }
      o := Add(t.key.src, Fresh(generated.value));
    }

    /** One iteration of processMessages. */
    method ProcessMessage(nid: string, k: MessageKey, willing: bool, received: Answer<bool>, deleteOk: bool)
      requires Valid() && nid in chains && k in chains[nid].cache.messages
      modifies this`messages, this`h, this`flights, this`nextFid, chains[nid].cache, chains[nid].cache.messages[k]
      ensures Valid() && Abs() == ApplyProcess(old(Abs()), nid, k, willing, received, deleteOk, old(nextFid))
    {
      var o := chains[nid].cache.messages[k];
      if o.msg.dst !in chains {
        DropUnknown(nid, o.msg.Key(), deleteOk);
        return;
      }
      if o.isProcessing || !willing { return; }
      if received.Error? { return; }
      if received.value {
        ClearConfirmed(nid, o.msg.Key(), deleteOk);
        return;
      }
      StartRoute(nid, o);
    }

    /** The inner loop of processMessages: every message that stays in the cache was looked at once. */
    method ProcessChain(nid: string, env: MessageKey -> Replies) returns (ghost steps: seq<Step<RouteMessage>>)
      requires Valid() && nid in chains
      modifies this`messages, this`h, this`flights, this`nextFid, chains[nid].cache, objects
      ensures Valid() && InLoop(old(Abs()), steps, Abs(), nid, {}, env)
    {
      steps := [];
      ghost var s := Abs();
      var todo := chains[nid].cache.messages.Keys;
      while todo != {}
        invariant Valid() && InLoop(s, steps, Abs(), nid, todo, env)
      {
        var k :| k in todo;
        if k in chains[nid].cache.messages {
          var Replies(willing, received, deleteOk) := env(k);
          LoopProcesses(s, steps, Abs(), todo, env, nid, k, nextFid);
          steps := steps + [Process(nid, k, willing, received, deleteOk, nextFid)];
          ProcessMessage(nid, k, willing, received, deleteOk);
        } else {
          LoopSkips(s, steps, Abs(), nid, todo, env, k);
        }
        todo := todo - {k};
      }
    }

    /** processMessages: every message that stays in a cache was looked at once. */
    method ProcessMessages(env: MessageKey -> Replies) returns (ghost steps: seq<Step<RouteMessage>>)
      requires Valid()
      modifies this`messages, this`h, this`flights, this`nextFid, objects, set n | n in chains :: chains[n].cache
      ensures Valid() && InChains(old(Abs()), steps, Abs(), {}, env)
    {
      steps := [];
      ghost var s := Abs();
      var todo := chains.Keys;
      while todo != {}
        invariant Valid() && InChains(s, steps, Abs(), todo, env) && todo <= chains.Keys
      {
        var n :| n in todo;
        ghost var t := Abs();
        ghost var more := ProcessChain(n, env);
        ChainDone(s, steps, t, todo, env, n, more, Abs());
        steps := steps + more;
        todo := todo - {n};
      }
    }

    /** The loop body of flushMessages, when the scan succeeds. */
    method FlushOne(nid: string, ghost s: State<RouteMessage>, ghost steps: seq<Step<RouteMessage>>,
                    ghost todo: set<string>, ghost failed: set<string>)
      returns (ghost steps': seq<Step<RouteMessage>>)
      requires Valid() && nid in chains && nid in todo && nid !in failed && InFlush(s, steps, Abs(), todo, failed)
      modifies this`objects, chains[nid].cache
      ensures Valid() && old(objects) <= objects && forall o :: o in objects && o !in old(objects) ==> fresh(o)
      ensures InFlush(s, steps', Abs(), todo - {nid}, failed)
    {
      var listing := ScanMessages(nid);
      ghost var t := Abs();
      ghost var os := FlushChain(nid, listing);
      FlushedOne(s, steps, t, todo, failed, nid, listing, os);
      steps' := steps + [Flush(nid, listing, os)];
    }

    /** flushMessages. A chain whose scan fails is skipped. */
    method FlushMessages(countOk: bool, failing: set<string>) returns (ghost steps: seq<Step<RouteMessage>>)
      requires Valid()
      modifies this`objects, set n | n in chains :: chains[n].cache
      ensures Valid() && old(objects) <= objects && forall o :: o in objects && o !in old(objects) ==> fresh(o)
      ensures if countOk && messages != map[] then InFlush(old(Abs()), steps, Abs(), {}, failing)
        else Abs() == old(Abs()) && steps == []
    {
      steps := [];
      var count := if countOk then |messages| else 0;
      if count == 0 { return; }
      ghost var s := Abs();
      ghost var was := objects;
      var todo := chains.Keys;
      while todo != {}
        invariant Valid() && InFlush(s, steps, Abs(), todo, failing)
        invariant was <= objects && forall o :: o in objects && o !in was ==> fresh(o)
      {
        var n :| n in todo;
        if n in failing {
          FlushFailed(s, steps, Abs(), todo, failing, n);
        } else {
          steps := FlushOne(n, s, steps, todo, failing);
        }
        todo := todo - {n};
      }
    }

    /** One tx object of the loop of CheckFinality. */
    method CheckOne(x: TxObject, env: TxObject -> CheckReplies, ghost s: State<RouteMessage>,
                    ghost steps: seq<Step<RouteMessage>>,
                    ghost nids: set<string>, ghost failed: set<string>)
      returns (ghost steps': seq<Step<RouteMessage>>)
      requires Valid() && x in scan.left && scan.nid in chains && chains[scan.nid].depth > 0
      requires InCheck(s, steps, Abs(), nids, failed, env)
      modifies this`scan, this`finality, this`objects, this`h, set n | n in chains :: chains[n].cache
      ensures Valid() && old(objects) <= objects && forall o :: o in objects && o !in old(objects) ==> fresh(o)
      ensures InCheck(s, steps', Abs(), nids, failed, env) && scan == old(scan).(left := old(scan).left - {x})
    {
      var CheckReplies(receipt, deleteOk, payload) := env(x);
      var generated := Generated(payload, x.key);
      ghost var t := Abs();
      ghost var o := CheckTx(x, receipt, deleteOk, generated);
      CheckedOne(s, steps, t, nids, failed, env, x, o);
      steps' := steps + [Step.CheckTx(x, receipt, deleteOk, generated, o)];
    }

    /** All tx objects of the scan. */
    method CheckLeft(env: TxObject -> CheckReplies, ghost s: State<RouteMessage>, ghost steps: seq<Step<RouteMessage>>,
                     ghost nids: set<string>, ghost failed: set<string>)
      returns (ghost steps': seq<Step<RouteMessage>>)
      requires Valid() && scan.nid in chains && chains[scan.nid].depth > 0
      requires InCheck(s, steps, Abs(), nids, failed, env)
      modifies this`scan, this`finality, this`objects, this`h, set n | n in chains :: chains[n].cache
      ensures Valid() && old(objects) <= objects && forall o :: o in objects && o !in old(objects) ==> fresh(o)
      ensures InCheck(s, steps', Abs(), nids, failed, env) && scan.left == {}
    {
      steps' := steps;
      ghost var was := objects;
      while scan.left != {}
        invariant Valid() && InCheck(s, steps', Abs(), nids, failed, env) && scan.nid == old(scan.nid)
        invariant was <= objects && forall o :: o in objects && o !in was ==> fresh(o)
        decreases |scan.left|
      {
        var x :| x in scan.left;
        steps' := CheckOne(x, env, s, steps', nids, failed);
      }
    }

    /** One chain of CheckFinality, when its scan succeeds. */
    method CheckChain(nid: string, env: TxObject -> CheckReplies, ghost s: State<RouteMessage>,
                      ghost steps: seq<Step<RouteMessage>>,
                      ghost nids: set<string>, ghost failed: set<string>)
      returns (ghost steps': seq<Step<RouteMessage>>)
      requires Valid() && nid in chains && nid in nids && nid !in failed && scan.left == {}
      requires InCheck(s, steps, Abs(), nids, failed, env)
      modifies this`scan, this`finality, this`objects, this`h, set n | n in chains :: chains[n].cache
      ensures Valid() && old(objects) <= objects && forall o :: o in objects && o !in old(objects) ==> fresh(o)
      ensures InCheck(s, steps', Abs(), nids - {nid}, failed, env) && scan.left == {}
    {
      steps' := steps;
      if chains[nid].depth == 0 {
        CheckSkips(s, steps, Abs(), nids, failed, env, nid);
        return;
      }
      ScannedOne(s, steps, Abs(), nids, failed, env, nid);
      ScanTx(nid);
      steps' := CheckLeft(env, s, steps + [Step.ScanTx(nid)], nids - {nid}, failed);
    }

    /** CheckFinality: every chain with a finality depth is scanned once, unless its scan fails, and
        every tx object of a scan is checked. */
    method CheckFinality(failing: set<string>, env: TxObject -> CheckReplies)
      returns (ghost steps: seq<Step<RouteMessage>>)
      requires Valid() && scan.left == {}
      modifies this`scan, this`finality, this`objects, this`h, set n | n in chains :: chains[n].cache
      ensures Valid() && old(objects) <= objects && forall o :: o in objects && o !in old(objects) ==> fresh(o)
      ensures InCheck(old(Abs()), steps, Abs(), {}, failing, env) && scan.left == {}
    {
      steps := [];
      ghost var s := Abs();
      ghost var was := objects;
      var todo := chains.Keys;
      while todo != {}
        invariant Valid() && InCheck(s, steps, Abs(), todo, failing, env) && todo <= chains.Keys && scan.left == {}
        invariant was <= objects && forall o :: o in objects && o !in was ==> fresh(o)
      {
        var n :| n in todo;
        if n in failing {
          CheckSkips(s, steps, Abs(), todo, failing, env, n);
        } else {
          steps := CheckChain(n, env, s, steps, todo, failing);
        }
        todo := todo - {n};
      }
    }

    /** The loop body of mergeMessages. */
    method MergeOne(nid: string, ms: seq<Message>, i: nat, ghost s: State<RouteMessage>,
                    ghost steps: seq<Step<RouteMessage>>)
      returns (ghost steps': seq<Step<RouteMessage>>)
      requires Valid() && i < |ms| && ms[i].src == nid && nid in chains && multiset(ms) <= s.pending
      requires InMerge(s, steps, Abs(), ms, i)
      modifies this`pending, this`objects, chains[nid].cache
      ensures Valid() && old(objects) <= objects && forall o :: o in objects && o !in old(objects) ==> fresh(o)
      ensures InMerge(s, steps', Abs(), ms, i + 1)
    {
      StillPending(s.pending, ms, i);
      ghost var t := Abs();
      var o := MergeMessage(ms[i]);
      MergedOne(s, steps, t, ms, i, o);
      steps' := steps + [Merge(ms[i], o)];
    }

    /** mergeMessages. */
    method MergeMessages(nid: string, ms: seq<Message>) returns (ghost steps: seq<Step<RouteMessage>>)
      requires Valid() && nid in chains && multiset(ms) <= pending && forall m :: m in ms ==> m.src == nid
      modifies this`pending, this`objects, chains[nid].cache
      ensures Valid() && old(objects) <= objects && forall o :: o in objects && o !in old(objects) ==> fresh(o)
      ensures InMerge(old(Abs()), steps, Abs(), ms, |ms|)
    {
      steps := [];
      ghost var s := Abs();
      ghost var was := objects;
      for i := 0 to |ms|
        invariant Valid() && InMerge(s, steps, Abs(), ms, i)
        invariant was <= objects && forall o :: o in objects && o !in was ==> fresh(o)
      {
        assert ms[i] in ms;
        steps := MergeOne(nid, ms, i, s, steps);
      }
    }

    // ---------- everything together ----------

    method OnBlock(nid: string, height: nat, msgs: seq<Message>, writeOk: bool)
      returns (ghost steps: seq<Step<RouteMessage>>)
      requires Valid() && WellFormed(Abs())
      modifies this`blocks, this`pending, this`h, if nid in chains then {chains[nid]} else {}
      ensures Valid()
      ensures Took(old(Abs()), steps, Abs(), nid in chains && height < TWO64 && OwnMessages(nid, msgs),
                   ProcessBlock(nid, height, msgs, writeOk))
    {
      steps := [];
      if nid in chains && height < TWO64 && OwnMessages(nid, msgs) {
        assert nid in Abs().chains && Abs().chains[nid].lastSaved < TWO64;
        BlockNext(Abs(), [], Abs(), nid, height, msgs, writeOk);
        steps := [] + [ProcessBlock(nid, height, msgs, writeOk)];
        ProcessBlockInfo(nid, height, msgs, writeOk);
      }
    }

    method OnScan(nid: string) returns (ghost steps: seq<Step<RouteMessage>>)
      requires Valid()
      modifies this`scan
      ensures Valid()
      ensures Took(old(Abs()), steps, Abs(), nid in chains && chains[nid].depth > 0 && old(scan).left == {},
                   Step.ScanTx(nid))
    {
      steps := [];
      if nid in chains && chains[nid].depth > 0 && scan.left == {} {
        ScanNext(Abs(), [], Abs(), nid);
        steps := [] + [Step.ScanTx(nid)];
        ScanTx(nid);
      }
    }

    method OnCheck(x: TxObject, answer: CheckReplies) returns (ghost steps: seq<Step<RouteMessage>>)
      requires Valid()
      modifies this`scan, this`finality, this`objects, this`h, set n | n in chains :: chains[n].cache
      ensures Valid() && old(objects) <= objects && forall o :: o in objects && o !in old(objects) ==> fresh(o)
      ensures Reaches(old(Abs()), steps, Abs())
      ensures if x in old(scan).left && old(scan).nid in chains && chains[old(scan).nid].depth > 0
        then |steps| == 1 && CheckAnswered(steps[0], answer) && steps[0].t == x
        else steps == []
    {
      steps := [];
      if x in scan.left && scan.nid in chains && chains[scan.nid].depth > 0 {
        var generated := Generated(answer.generated, x.key);
        ghost var t := Abs();
        ghost var o := CheckTx(x, answer.receipt, answer.deleteOk, generated);
        CheckNext(t, [], t, x, answer.receipt, answer.deleteOk, generated, o);
        steps := [] + [Step.CheckTx(x, answer.receipt, answer.deleteOk, generated, o)];
      }
    }

    method OnRouteError(fid: nat, storeOk: bool) returns (ghost steps: seq<Step<RouteMessage>>)
      requires Valid() && fid in flights && CanLand(Abs(), fid)
      modifies this`flights, this`messages, this`h, objects, chains[flights[fid].src].cache
      ensures Valid() && Took(old(Abs()), steps, Abs(), true, RouteError(fid, storeOk))
    {
      RouteErrorNext(Abs(), [], Abs(), fid, storeOk);
      steps := [] + [RouteError(fid, storeOk)];
      RouteFails(fid, storeOk);
    }

    method OnFailure(fid: nat, storeOk: bool) returns (ghost steps: seq<Step<RouteMessage>>)
      requires Valid() && fid in flights && CanLand(Abs(), fid)
      modifies this`flights, this`messages, this`h, objects, chains[flights[fid].src].cache
      ensures Valid() && Took(old(Abs()), steps, Abs(), true, CallbackFailure(fid, storeOk))
    {
      FailureNext(Abs(), [], Abs(), fid, storeOk);
      steps := [] + [CallbackFailure(fid, storeOk)];
      CallbackFails(fid, storeOk);
    }

    method OnSuccess(fid: nat, txHash: string, txHeight: nat, writeOk: bool, deleteOk: bool)
      returns (ghost steps: seq<Step<RouteMessage>>)
      requires Valid() && fid in flights && CanLand(Abs(), fid)
      modifies this`flights, this`messages, this`finality, this`h, chains[flights[fid].src].cache
      ensures Valid() && Took(old(Abs()), steps, Abs(), true, CallbackSuccess(fid, txHash, txHeight, writeOk, deleteOk))
    {
      SuccessNext(Abs(), [], Abs(), fid, txHash, txHeight, writeOk, deleteOk);
      steps := [] + [CallbackSuccess(fid, txHash, txHeight, writeOk, deleteOk)];
      CallbackSucceeds(fid, txHash, txHeight, writeOk, deleteOk);
    }

    method OnEnd(e: Event) returns (ghost steps: seq<Step<RouteMessage>>)
      requires Valid() && WellFormed(Abs()) && (e.RouteErrs? || e.Fails? || e.Succeeds?)
      modifies this`flights, this`messages, this`finality, this`h, objects, set n | n in chains :: chains[n].cache
      ensures Valid() && Handled(e, old(Abs()), steps, Abs())
    {
      steps := [];
      if e.fid !in flights { return; }
      CanAlwaysLand(Abs(), e.fid);
      match e {
        case RouteErrs(fid, storeOk) => steps := OnRouteError(fid, storeOk);
        case Fails(fid, storeOk) => steps := OnFailure(fid, storeOk);
        case Succeeds(fid, txHash, txHeight, writeOk, deleteOk) =>
          steps := OnSuccess(fid, txHash, txHeight, writeOk, deleteOk);
      }
    }

    method OnFinality(e: Event) returns (ghost steps: seq<Step<RouteMessage>>)
      requires Valid() && (e.FinalityTick? || e.ScanRuns? || e.CheckRuns?)
      modifies this`scan, this`finality, this`objects, this`h, set n | n in chains :: chains[n].cache
      ensures Valid() && old(objects) <= objects && forall o :: o in objects && o !in old(objects) ==> fresh(o)
      ensures Handled(e, old(Abs()), steps, Abs())
    {
      steps := [];
      match e {
        case FinalityTick(failing, answers) => if scan.left == {} { steps := CheckFinality(failing, answers); }
        case ScanRuns(nid) => steps := OnScan(nid);
        case CheckRuns(x, answer) => steps := OnCheck(x, answer);
      }
    }

    /** A block, or the goroutine that merges its messages. */
    method OnArrival(e: Event) returns (ghost steps: seq<Step<RouteMessage>>)
      requires Valid() && WellFormed(Abs()) && (e.BlockArrives? || e.MergeRuns?)
      modifies this, objects, chains.Values, set n | n in chains :: chains[n].cache
      ensures Valid() && old(objects) <= objects && forall o :: o in objects && o !in old(objects) ==> fresh(o)
      ensures Handled(e, old(Abs()), steps, Abs())
    {
      steps := [];
      match e {
        case BlockArrives(nid, height, msgs, writeOk) => steps := OnBlock(nid, height, msgs, writeOk);
        case MergeRuns(nid, msgs) =>
          if nid in chains && multiset(msgs) <= pending && OwnMessages(nid, msgs) { steps := MergeMessages(nid, msgs); }
      }
    }

    method Handle(e: Event) returns (ghost steps: seq<Step<RouteMessage>>)
      requires Valid() && WellFormed(Abs())
      modifies this, objects, chains.Values, set n | n in chains :: chains[n].cache
      ensures Valid() && old(objects) <= objects && forall o :: o in objects && o !in old(objects) ==> fresh(o)
      ensures Handled(e, old(Abs()), steps, Abs())
    {
      match e {
        case BlockArrives(_, _, _, _) => steps := OnArrival(e);
        case MergeRuns(_, _) => steps := OnArrival(e);
        case RouteTick(replies) => steps := ProcessMessages(replies);
        case FlushTick(countOk, failing) => steps := FlushMessages(countOk, failing);
        case FinalityTick(_, _) => steps := OnFinality(e);
        case ScanRuns(_) => steps := OnFinality(e);
        case CheckRuns(_, _) => steps := OnFinality(e);
        case _ => steps := OnEnd(e);
      }
    }

    /** The relayer from its start on, for every schedule of events with every answer: each event is
        its steps of the machine, so nothing is lost when messages are numbered. `trace` are the
        states between the events, and `parts` the steps of each. */
    method Serve(events: seq<Event>)
      returns (ghost steps: seq<Step<RouteMessage>>, ghost trace: seq<State<RouteMessage>>,
        ghost parts: seq<seq<Step<RouteMessage>>>)
      requires Valid() && Init(Abs())
      modifies this, objects, chains.Values, set n | n in chains :: chains[n].cache
      ensures Valid() && Reaches(old(Abs()), steps, Abs()) && WellFormed(Abs())
      ensures Numbered(h.known) && NumberedAtDestination(h.known) ==> NoLoss(Abs())
      ensures Told(events, trace, parts) && trace[0] == old(Abs()) && trace[|events|] == Abs()
    {
      ghost var s := Abs();
      steps, trace, parts := [], [s], [];
      ghost var was := objects;
      for i := 0 to |events|
        invariant Valid() && Reaches(s, steps, Abs())
        invariant Told(events[..i], trace, parts) && trace[0] == s && trace[i] == Abs()
        invariant was <= objects && forall o :: o in objects && o !in was ==> fresh(o)
      {
        Reached(s, steps, Abs());
        ghost var t := Abs();
        ghost var more := Handle(events[i]);
        HandledReaches(events[i], t, more, Abs());
        RunJoin(s, steps, more);
        steps := steps + more;
        ToldMore(events, i, trace, parts, more, Abs());
        trace, parts := trace + [Abs()], parts + [more];
      }
      Reached(s, steps, Abs());
      assert events[..|events|] == events;
    }
  }
}
