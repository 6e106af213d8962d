/** How often the relayer may try. */
module RelayAttempts {
  import opened Types
  import opened RelaySpec
  import opened RelayFrames
  import opened RelayInvariants

  /** Attempts that an object still has. */
  function Credit(c: Cell): int { Limit(c) - c.e.retry }

  ghost function Credits<O>(heap: map<O, Cell>): int
  {
    if heap == map[] then 0
    else
      var o :| o in heap;
      Credit(heap[o]) + Credits(heap - {o})
  }

  lemma {:induction false} CreditsWithout<O>(heap: map<O, Cell>, o: O)
    requires o in heap
    ensures Credits(heap) == Credit(heap[o]) + Credits(heap - {o})
    decreases |heap|
  {
    var p :| p in heap && Credits(heap) == Credit(heap[p]) + Credits(heap - {p});
    if p != o {
      CreditsWithout(heap - {p}, o);
      CreditsWithout(heap - {o}, p);
      assert heap - {p} - {o} == heap - {o} - {p};
    }
  }

  lemma CreditsChange<O>(heap: map<O, Cell>, o: O, c: Cell)
    requires o in heap
    ensures Credits(heap[o := c]) == Credits(heap) + Credit(c) - Credit(heap[o])
    ensures |heap[o := c]| == |heap|
  {
    CreditsWithout(heap[o := c], o);
    CreditsWithout(heap, o);
    assert heap[o := c] - {o} == heap - {o};
    assert heap[o := c].Keys == heap.Keys;
  }

  lemma CreditsAdd<O>(heap: map<O, Cell>, o: O, c: Cell)
    requires o !in heap
    ensures Credits(heap[o := c]) == Credits(heap) + Credit(c)
    ensures |heap[o := c]| == |heap| + 1
  {
    CreditsWithout(heap[o := c], o);
    assert heap[o := c] - {o} == heap;
  }

  lemma {:induction false} CreditsNonNegative<O>(heap: map<O, Cell>, failures: nat)
    requires forall o :: o in heap ==> RetryOk(heap[o], failures)
    ensures Credits(heap) >= 0
    decreases |heap|
  {
    if heap == map[] {
      assert Credits(heap) == 0;
    } else {
      var o :| o in heap && Credits(heap) == Credit(heap[o]) + Credits(heap - {o});
      assert RetryOk(heap[o], failures);
      assert Credit(heap[o]) >= 0;
      CreditsNonNegative(heap - {o}, failures);
    }
  }

  /** Three attempts are granted for every object put in a cache and for every write to the
      message store that failed; each attempt uses one up. */
  ghost predicate Balanced<O>(s: State<O>)
  {
    Credits(s.heap) + s.h.dispatched == 3 * (|s.heap| + s.h.writeFailures)
  }

  lemma {:induction false} InsertAllBalanced<O>(s: State<O>, nid: string, es: seq<Entry>, os: seq<O>)
    requires Balanced(s) && nid in s.chains && |es| == |os|
    requires forall i :: 0 <= i < |os| ==> os[i] !in s.heap
    requires forall i, j :: 0 <= i < j < |os| ==> os[i] != os[j]
    ensures Balanced(InsertAll(s, nid, es, os))
    decreases |es|
  {
    if es != [] {
      CreditsAdd(s.heap, os[0], Cell(es[0], es[0].retry, 0));
      InsertAllBalanced(Insert(s, nid, es[0], os[0]), nid, es[1..], os[1..]);
    }
  }

  lemma FailBalanced<O>(s: State<O>, o: O, src: string, storeOk: bool)
    requires Balanced(s) && o in s.heap && src in s.chains
    ensures Balanced(Fail(s, o, src, storeOk))
  {
    var g := GiveBack(s, o);
    CreditsChange(s.heap, o, g.heap[o]);
    CreditsChange(g.heap, o, LoseWrite(g, o).heap[o]);
  }

  lemma StepBalanced<O>(s: State<O>, step: Step<O>)
    requires Balanced(s) && Enabled(s, step)
    ensures Balanced(Apply(s, step))
  {
    match step
    case Merge(m, o) => InsertBalanced(s.(pending := s.pending - multiset{m}), m.src, Fresh(m), o);
    case Flush(nid, listing, os) => InsertAllBalanced(s, nid, Active(Entries(s.messages, listing)), os);
    case Process(_, _, _, _, _, _) => ProcessBalanced(s, step);
    case RouteError(fid, storeOk) => FailBalanced(Landed(s, fid), s.flights[fid].obj, s.flights[fid].src, storeOk);
    case CallbackFailure(fid, storeOk) =>
      var f := s.flights[fid];
      if f.key in s.chains[f.src].cache { FailBalanced(Landed(s, fid), s.chains[f.src].cache[f.key], f.src, storeOk); }
    case CheckTx(_, _, _, _, _) => CheckBalanced(s, step);
    case ScanTx(_) =>
    case CallbackSuccess(fid, txHash, txHeight, writeOk, deleteOk) =>
      SuccessBalanced(s, fid, txHash, txHeight, writeOk, deleteOk);
    case ProcessBlock(_, _, _, _) =>
  }

  lemma InsertBalanced<O>(s: State<O>, nid: string, e: Entry, o: O)
    requires Balanced(s) && nid in s.chains && o !in s.heap
    ensures Balanced(Insert(s, nid, e, o))
  {
    CreditsAdd(s.heap, o, Cell(e, e.retry, 0));
  }

  lemma SuccessBalanced<O>(s: State<O>, fid: nat, txHash: string, txHeight: nat, writeOk: bool, deleteOk: bool)
    requires Balanced(s) && CanLand(s, fid)
    ensures Balanced(ApplySuccess(s, fid, txHash, txHeight, writeOk, deleteOk))
  {
  }

  lemma ProcessBalanced<O>(s: State<O>, step: Step<O>)
    requires Balanced(s) && step.Process? && Enabled(s, step)
    ensures Balanced(Apply(s, step))
  {
    var Process(nid, k, willing, received, deleteOk, fid) := step;
    ProcessSpends(s, nid, k, willing, received, deleteOk, fid);
  }

  lemma ProcessSpends<O>(s: State<O>, nid: string, k: MessageKey, willing: bool, received: Answer<bool>,
                         deleteOk: bool, fid: nat)
    requires Balanced(s) && Cached(s, nid, k) && s.chains[nid].cache[k] in s.heap
    ensures Balanced(ApplyProcess(s, nid, k, willing, received, deleteOk, fid))
  {
    var o := s.chains[nid].cache[k];
    var e := s.heap[o].e;
    if e.msg.dst !in s.chains || e.isProcessing || !willing || received.Error? || received.value {
      assert ApplyProcess(s, nid, k, willing, received, deleteOk, fid).heap == s.heap;
    } else {
      CreditsChange(s.heap, o, Launch(s, nid, o, fid).heap[o]);
    }
  }

  lemma CheckBalanced<O>(s: State<O>, step: Step<O>)
    requires Balanced(s) && step.CheckTx? && Enabled(s, step)
    ensures Balanced(Apply(s, step))
  {
    var CheckTx(x, receipt, deleteOk, generated, o) := step;
    CheckHeap(s, x, receipt, deleteOk, generated, o);
    if generated.Some? { CreditsAdd(s.heap, o, Cell(Fresh(generated.value), 0, 0)); }
  }

  lemma {:induction false} RunBalanced<O>(s: State<O>, steps: seq<Step<O>>)
    requires Balanced(s) && ValidRun(s, steps)
    ensures Balanced(Exec(s, steps))
    decreases |steps|
  {
    if steps != [] {
      StepBalanced(s, steps[0]);
      RunBalanced(Apply(s, steps[0]), steps[1..]);
    }
  }

  /** Over every run: at most three attempts for every object put in a cache, and three more for
      every write to the message store that failed. */
  lemma AttemptsBounded<O>(s: State<O>, steps: seq<Step<O>>)
    requires Init(s) && ValidRun(s, steps)
    ensures Exec(s, steps).h.dispatched <= 3 * (|Exec(s, steps).heap| + Exec(s, steps).h.writeFailures)
  {
    InitWellFormed(s);
    RunWellFormed(s, steps);
    RunBalanced(s, steps);
    CreditsNonNegative(Exec(s, steps).heap, Exec(s, steps).h.writeFailures);
  }

  /** An object enters after zero to four whole rounds, and has one more round. */
  predicate WithinRound(c: Cell)
  {
    c.start in {0, 3, 6, 9, 12} && c.start <= c.e.retry <= c.start + 3 * (1 + c.failedWrites)
  }

  /** The same for each object. */
  lemma ObjectAttemptsBounded<O>(s: State<O>, steps: seq<Step<O>>)
    requires Init(s) && ValidRun(s, steps)
    ensures forall o :: o in Exec(s, steps).heap ==> WithinRound(Exec(s, steps).heap[o])
  {
    InitWellFormed(s);
    RunWellFormed(s, steps);
    RetriesWithinRound(Exec(s, steps));
  }

  lemma RetriesWithinRound<O>(t: State<O>)
    requires RetriesOk(t)
    ensures forall o :: o in t.heap ==> WithinRound(t.heap[o])
  {
    forall o | o in t.heap ensures WithinRound(t.heap[o]) { assert RetryOk(t.heap[o], t.h.writeFailures); }
  }

  /** No object that waits in a cache has used up its rounds; what is stored is idle, after one to
      five whole rounds, and one more for each write that was lost, in this session or an earlier one. */
  ghost predicate NothingUsedUp<O>(t: State<O>)
  {
    && (forall n, k :: Idle(t, n, k) ==> HasAttempt(t.heap[t.chains[n].cache[k]]))
    && (forall sl :: sl in t.messages ==> WholeRounds(t.messages[sl], t.h.lostBefore + t.h.writeFailures))
  }

  predicate HasAttempt(c: Cell) { c.e.retry < c.start + 3 * (1 + c.failedWrites) && c.start in {0, 3, 6, 9, 12} }

  predicate WholeRounds(e: Entry, lost: nat)
  {
    !e.isProcessing && 3 <= e.retry <= 15 + 3 * lost && e.retry % 3 == 0 && (lost == 0 ==> e.retry in {3, 6, 9, 12, 15})
  }

  lemma WaitingIsNotUsedUp<O>(s: State<O>, steps: seq<Step<O>>)
    requires Init(s) && ValidRun(s, steps)
    ensures NothingUsedUp(Exec(s, steps))
  {
    InitWellFormed(s);
    RunWellFormed(s, steps);
    WellFormedNothingUsedUp(Exec(s, steps));
  }

  lemma WellFormedNothingUsedUp<O>(t: State<O>)
    requires WellFormed(t)
    ensures NothingUsedUp(t)
  {
    forall n, k | Idle(t, n, k) ensures HasAttempt(t.heap[t.chains[n].cache[k]]) {
      assert Cached(t, n, k) && WaitingOk(t, n, k) && RetryOk(t.heap[t.chains[n].cache[k]], t.h.writeFailures);
    }
    var lost := t.h.lostBefore + t.h.writeFailures;
    forall sl | sl in t.messages ensures WholeRounds(t.messages[sl], lost) {
      assert StoredOk(sl, t.messages[sl], lost);
    }
  }

  // ---------- the attempts of one message are not bounded ----------

  /** Message `m` is stored after its first round, and nothing is in the air. */
  ghost predicate Shelved(s: State<nat>, m: Message)
  {
    WellFormed(s) && s.flights == map[] && m.src in s.chains && m.dst in s.chains &&
    s.messages == map[SrcSlot(m.Key()) := Entry(m, 3, false)]
  }

  /** The first step of the cycle: flush leaves the message in the store, and puts a new object
      with the old retry count in the cache. */
  lemma FlushAgain(s: State<nat>, m: Message, o: nat) returns (step: Step<nat>)
    requires Shelved(s, m) && o !in s.heap
    ensures step.Flush? && Enabled(s, step) && Apply(s, step) == Insert(s, m.src, Entry(m, 3, false), o)
  {
    var sl := SrcSlot(m.Key());
    var e := Entry(m, 3, false);
    step := Flush(m.src, [sl], [o]);
    assert Entries(s.messages, [sl]) == [e] && NotStale([e]) == [e] + NotStale([]) == [e];
    assert InsertAll(s, m.src, [e], [o]) == InsertAll(Insert(s, m.src, e, o), m.src, [], []);
  }

  lemma NewName(used: set<nat>) returns (o: nat)
    ensures o !in used
  {
    o := 0;
    var rest := used;
    while rest != {}
      invariant rest <= used && forall p :: p in used && p !in rest ==> p < o
    {
      var p :| p in rest;
      if p >= o { o := p + 1; }
      rest := rest - {p};
    }
  }

  lemma Prepend<O>(s: State<O>, step: Step<O>, rest: seq<Step<O>>)
    requires Enabled(s, step) && ValidRun(Apply(s, step), rest)
    ensures ValidRun(s, [step] + rest) && Exec(s, [step] + rest) == Exec(Apply(s, step), rest)
  {
    assert ([step] + rest)[1..] == rest;
  }

  predicate InCycle<O>(step: Step<O>) { step.Flush? || step.Process? || step.RouteError? }

  /** A message delivered once can be attempted any number of times: a limit of fifteen is not
      kept when flush comes back before a round is over. */
  lemma {:induction false} AttemptsOfOneMessageUnbounded(s: State<nat>, m: Message, n: nat)
    returns (steps: seq<Step<nat>>)
    requires Shelved(s, m)
    ensures ValidRun(s, steps) && forall step :: step in steps ==> InCycle(step)
    ensures Shelved(Exec(s, steps), m) && Exec(s, steps).h.dispatched == s.h.dispatched + n
    decreases n, 2
  {
    if n == 0 {
      steps := [];
    } else {
      var o: nat := NewName(s.heap.Keys);
      var step := FlushAgain(s, m, o);
      StepWellFormed(s, step);
      var rest := AttemptFlushed(Apply(s, step), m, o, n);
      Prepend(s, step, rest);
      steps := [step] + rest;
    }
  }

  lemma {:induction false} AttemptFlushed(s: State<nat>, m: Message, o: nat, n: nat) returns (steps: seq<Step<nat>>)
    requires Shelved(s, m) && n > 0 && o in s.heap && s.heap[o].e == Entry(m, 3, false)
    requires Cached(s, m.src, m.Key()) && s.chains[m.src].cache[m.Key()] == o
    ensures ValidRun(s, steps) && forall step :: step in steps ==> InCycle(step)
    ensures Shelved(Exec(s, steps), m) && Exec(s, steps).h.dispatched == s.h.dispatched + n
    decreases n, 1
  {
    var step := Process(m.src, m.Key(), true, Reply(false), true, 0);
    assert Apply(s, step) == Launch(s, m.src, o, 0);
    StepWellFormed(s, step);
    var rest := AttemptInAir(Apply(s, step), m, o, n - 1);
    Prepend(s, step, rest);
    steps := [step] + rest;
  }

  lemma {:induction false} AttemptInAir(s: State<nat>, m: Message, o: nat, n: nat) returns (steps: seq<Step<nat>>)
    requires WellFormed(s) && m.src in s.chains && m.dst in s.chains
    requires s.messages == map[SrcSlot(m.Key()) := Entry(m, 3, false)]
    requires s.flights == map[0 := Flight(o, m.Key(), m.src, m.dst)] && o in s.heap && s.heap[o].e == Entry(m, 4, true)
    ensures ValidRun(s, steps) && forall step :: step in steps ==> InCycle(step)
    ensures Shelved(Exec(s, steps), m) && Exec(s, steps).h.dispatched == s.h.dispatched + n
    decreases n, 3
  {
    var step := RouteError(0, true);
    CanAlwaysLand(s, 0);
    assert Landed(s, 0).flights == map[];
    assert Apply(s, step) == GiveBack(Landed(s, 0), o);
    StepWellFormed(s, step);
    var rest := AttemptsOfOneMessageUnbounded(Apply(s, step), m, n);
    Prepend(s, step, rest);
    steps := [step] + rest;
  }
}
