/** Why the limit of fifteen attempts for a message needs all its conditions: for each of them, runs
    that break it alone, and start any number of attempts for one message. */
module RelayEndless {
  import opened Types
  import opened RelaySpec
  import opened RelayInvariants
  import opened RelayAttempts
  import opened RelayRuns

  /** The only attempts of the run are for `k`. */
  ghost predicate OnlyTries<O>(steps: seq<Step<O>>, k: MessageKey) {
    forall step :: step in steps && step.Process? ==> step.k == k
  }

  /** Object `o` waits in the cache for an attempt of `m`, and nothing is in the air. */
  ghost predicate CanTry(s: State<nat>, m: Message, o: nat)
  {
    Idle(s, m.src, m.Key()) && s.chains[m.src].cache[m.Key()] == o && s.heap[o].e.msg == m && m.dst in s.chains &&
    s.flights == map[]
  }

  ghost function InAir(s: State<nat>, m: Message, o: nat): State<nat>
    requires CanTry(s, m, o)
  {
    Launch(s, m.src, o, 0)
  }

  lemma Try(s: State<nat>, m: Message, o: nat)
    requires CanTry(s, m, o)
    ensures var step := Process(m.src, m.Key(), true, Reply(false), true, 0);
      Enabled(s, step) && Apply(s, step) == InAir(s, m, o)
    ensures var t := InAir(s, m, o);
      CanLand(t, 0) && t.flights == map[0 := Flight(o, m.Key(), m.src, m.dst)] && Landed(t, 0).flights == map[] &&
      t.chains == s.chains && t.messages == s.messages && t.finality == s.finality && t.pending == s.pending &&
      t.scan == s.scan && t.h.dispatched == s.h.dispatched + 1 && t.heap.Keys == s.heap.Keys && o in t.heap &&
      t.heap[o].e == Entry(m, s.heap[o].e.retry + 1, true)
  {
  }

  function TryStep(m: Message): Step<nat> { Process(m.src, m.Key(), true, Reply(false), true, 0) }

  lemma Two(s: State<nat>, a: Step<nat>, b: Step<nat>)
    requires Enabled(s, a) && Enabled(Apply(s, a), b)
    ensures ValidRun(s, [a, b]) && Exec(s, [a, b]) == Apply(Apply(s, a), b)
  {
    Prepend(Apply(s, a), b, []);
    Prepend(s, a, [b] + []);
    assert [a] + ([b] + []) == [a, b];
  }

  /** An attempt that ends with an error of Route. */
  lemma TryAndFail(s: State<nat>, m: Message, o: nat, storeOk: bool) returns (steps: seq<Step<nat>>)
    requires CanTry(s, m, o)
    ensures ValidRun(s, steps) && OnlyTries(steps, m.Key())
    ensures forall step :: step in steps ==> step == TryStep(m) || step == RouteError(0, storeOk)
    ensures Exec(s, steps) == Fail(Landed(InAir(s, m, o), 0), o, m.src, storeOk)
  {
    Try(s, m, o);
    steps := [TryStep(m), RouteError(0, storeOk)];
    Two(s, steps[0], steps[1]);
  }

  /** The object waits again, unless it has ended a round with a write that succeeds. */
  lemma WaitsAgain(s: State<nat>, m: Message, o: nat, storeOk: bool)
    requires CanTry(s, m, o) && (!storeOk || (s.heap[o].e.retry + 1) % 3 != 0)
    ensures var t := Fail(Landed(InAir(s, m, o), 0), o, m.src, storeOk);
      CanTry(t, m, o) && t.heap[o].e == Entry(m, s.heap[o].e.retry + 1, false) &&
      t.h.dispatched == s.h.dispatched + 1 &&
      t.chains == s.chains && t.pending == s.pending && t.messages == s.messages && t.heap.Keys == s.heap.Keys
  {
    Try(s, m, o);
  }

  // ---------- failed writes ----------

  lemma {:induction false} FailedWritesUnbounded(s: State<nat>, m: Message, o: nat, n: nat)
    returns (steps: seq<Step<nat>>)
    requires CanTry(s, m, o)
    ensures ValidRun(s, steps) && OnlyTries(steps, m.Key())
    ensures forall step :: step in steps ==> step == TryStep(m) || step == RouteError(0, false)
    ensures CanTry(Exec(s, steps), m, o) && Exec(s, steps).h.dispatched == s.h.dispatched + n
    decreases n
  {
    if n == 0 { return []; }
    var first := TryAndFail(s, m, o, false);
    WaitsAgain(s, m, o, false);
    var rest := FailedWritesUnbounded(Exec(s, first), m, o, n - 1);
    RunJoin(s, first, rest);
    steps := first + rest;
  }

  // ---------- redelivery ----------

  /** Nothing is pending or in the air, and the chains of the message are there. */
  ghost predicate Quiet(s: State<nat>, m: Message)
  {
    s.flights == map[] && s.pending == multiset{} && m.src in s.chains && m.dst in s.chains &&
    s.chains[m.src].lastSaved < TWO64
  }

  lemma Deliver(s: State<nat>, m: Message, o: nat) returns (steps: seq<Step<nat>>)
    requires Quiet(s, m) && o !in s.heap
    ensures ValidRun(s, steps) && forall step :: step in steps ==> step.ProcessBlock? || step.Merge?
    ensures var t := Exec(s, steps);
      CanTry(t, m, o) && Quiet(t, m) && t.heap[o].e == Fresh(m) && t.h.dispatched == s.h.dispatched &&
      t.messages == s.messages
  {
    var a, b := ProcessBlock(m.src, 100, [m], true), Merge(m, o);
    steps := [a, b];
    Delivered(s, m);
    var t := ApplyBlock(s, m.src, 100, [m], true);
    assert Apply(s, a) == t && Enabled(t, b);
    Merged(t, m, o);
    Two(s, a, b);
  }

  lemma Delivered(s: State<nat>, m: Message)
    requires Quiet(s, m)
    ensures Enabled(s, ProcessBlock(m.src, 100, [m], true))
    ensures var t := ApplyBlock(s, m.src, 100, [m], true);
      t.flights == map[] && t.pending == multiset{m} && t.chains.Keys == s.chains.Keys &&
      t.chains[m.src].lastSaved < TWO64 &&
      t.heap == s.heap && t.messages == s.messages && t.h.dispatched == s.h.dispatched
  {
    assert multiset([m]) == multiset{m};
  }

  lemma Merged(s: State<nat>, m: Message, o: nat)
    requires s.flights == map[] && s.pending == multiset{m} && o !in s.heap
    requires m.src in s.chains && m.dst in s.chains && s.chains[m.src].lastSaved < TWO64
    ensures var t := Insert(s.(pending := s.pending - multiset{m}), m.src, Fresh(m), o);
      CanTry(t, m, o) && Quiet(t, m) && t.heap[o].e == Fresh(m) && t.h.dispatched == s.h.dispatched &&
      t.messages == s.messages
  {
    assert s.pending - multiset{m} == multiset{};
  }

  lemma FailStaysQuiet(s: State<nat>, m: Message, o: nat)
    requires CanTry(s, m, o) && Quiet(s, m) && s.heap[o].e.retry == 0
    ensures var t := Fail(Landed(InAir(s, m, o), 0), o, m.src, true);
      Quiet(t, m) && t.h.dispatched == s.h.dispatched + 1
  {
    WaitsAgain(s, m, o, true);
  }

  lemma RedeliverOnce(s: State<nat>, m: Message) returns (steps: seq<Step<nat>>)
    requires Quiet(s, m)
    ensures ValidRun(s, steps) && OnlyTries(steps, m.Key()) && forall step :: step in steps ==> InRedelivery(step, m)
    ensures Quiet(Exec(s, steps), m) && Exec(s, steps).h.dispatched == s.h.dispatched + 1
  {
    var o: nat := NewName(s.heap.Keys);
    var delivery := Deliver(s, m, o);
    steps := FailDelivered(s, delivery, m, o);
  }

  lemma FailDelivered(s: State<nat>, delivery: seq<Step<nat>>, m: Message, o: nat) returns (steps: seq<Step<nat>>)
    requires ValidRun(s, delivery) && forall step :: step in delivery ==> step.ProcessBlock? || step.Merge?
    requires var t := Exec(s, delivery); CanTry(t, m, o) && Quiet(t, m) && t.heap[o].e.retry == 0
    ensures ValidRun(s, steps) && OnlyTries(steps, m.Key()) && forall step :: step in steps ==> InRedelivery(step, m)
    ensures Quiet(Exec(s, steps), m) && Exec(s, steps).h.dispatched == Exec(s, delivery).h.dispatched + 1
  {
    var t := Exec(s, delivery);
    FailStaysQuiet(t, m, o);
    var try := TryAndFail(t, m, o, true);
    RunJoin(s, delivery, try);
    steps := delivery + try;
  }

  predicate InRedelivery(step: Step<nat>, m: Message)
  {
    step.ProcessBlock? || step.Merge? || step == TryStep(m) || step == RouteError(0, true)
  }

  lemma {:induction false} RedeliveriesUnbounded(s: State<nat>, m: Message, n: nat) returns (steps: seq<Step<nat>>)
    requires Quiet(s, m)
    ensures ValidRun(s, steps) && OnlyTries(steps, m.Key()) && forall step :: step in steps ==> InRedelivery(step, m)
    ensures Quiet(Exec(s, steps), m) && Exec(s, steps).h.dispatched == s.h.dispatched + n
    decreases n
  {
    if n == 0 { return []; }
    var first := RedeliverOnce(s, m);
    var rest := RedeliveriesUnbounded(Exec(s, first), m, n - 1);
    RunJoin(s, first, rest);
    steps := first + rest;
  }

  // ---------- failed deletes ----------

  /** A message that is stored after its first round, for a chain without a finality depth. */
  ghost predicate LeftBehind(s: State<nat>, m: Message)
  {
    s.flights == map[] && m.src in s.chains && m.dst in s.chains && s.chains[m.dst].depth == 0 &&
    m.Key() !in s.chains[m.src].cache && s.messages == map[SrcSlot(m.Key()) := Entry(m, 3, false)]
  }

  lemma FlushBack(s: State<nat>, m: Message, retry: nat, o: nat)
    requires s.messages == map[SrcSlot(m.Key()) := Entry(m, retry, false)] && m.src in s.chains && o !in s.heap
    requires retry < 15
    ensures var step := Flush(m.src, [SrcSlot(m.Key())], [o]);
      Enabled(s, step) && Apply(s, step) == Insert(s, m.src, Entry(m, retry, false), o)
  {
    var sl, e := SrcSlot(m.Key()), Entry(m, retry, false);
    assert Entries(s.messages, [sl]) == [e] && NotStale([e]) == [e] + NotStale([]) == [e];
    assert InsertAll(s, m.src, [e], [o]) == InsertAll(Insert(s, m.src, e, o), m.src, [], []);
  }

  /** The attempt succeeds, but the delete in the message store fails. */
  lemma SucceedAndKeep(s: State<nat>, m: Message, o: nat)
    requires CanTry(s, m, o) && s.chains[m.dst].depth == 0
    ensures var t := InAir(s, m, o); var step := CallbackSuccess(0, "tx", 7, true, false);
      && Enabled(t, step) && Apply(t, step) == Confirm(Landed(t, 0), m.src, m.Key(), false)
      && Apply(t, step).flights == map[] && Apply(t, step).messages == s.messages &&
      Apply(t, step).h.dispatched == s.h.dispatched + 1
      && Apply(t, step).chains.Keys == s.chains.Keys && Apply(t, step).chains[m.dst].depth == 0
      && m.Key() !in Apply(t, step).chains[m.src].cache
  {
    Try(s, m, o);
  }

  predicate InFailedDelete(step: Step<nat>, m: Message)
  {
    step.Flush? || step == TryStep(m) || step == CallbackSuccess(0, "tx", 7, true, false)
  }

  lemma FailToDeleteOnce(s: State<nat>, m: Message) returns (steps: seq<Step<nat>>)
    requires LeftBehind(s, m)
    ensures ValidRun(s, steps) && OnlyTries(steps, m.Key()) && forall step :: step in steps ==> InFailedDelete(step, m)
    ensures LeftBehind(Exec(s, steps), m) && Exec(s, steps).h.dispatched == s.h.dispatched + 1
  {
    var o: nat := NewName(s.heap.Keys);
    var flush := Flush(m.src, [SrcSlot(m.Key())], [o]);
    FlushBack(s, m, 3, o);
    var t := Insert(s, m.src, Entry(m, 3, false), o);
    Try(t, m, o);
    SucceedAndKeep(t, m, o);
    var success := CallbackSuccess(0, "tx", 7, true, false);
    Two(t, TryStep(m), success);
    Prepend(s, flush, [TryStep(m), success]);
    steps := [flush] + [TryStep(m), success];
  }

  lemma {:induction false} FailedDeletesUnbounded(s: State<nat>, m: Message, n: nat) returns (steps: seq<Step<nat>>)
    requires LeftBehind(s, m)
    ensures ValidRun(s, steps) && OnlyTries(steps, m.Key()) && forall step :: step in steps ==> InFailedDelete(step, m)
    ensures LeftBehind(Exec(s, steps), m) && Exec(s, steps).h.dispatched == s.h.dispatched + n
    decreases n
  {
    if n == 0 { return []; }
    var first := FailToDeleteOnce(s, m);
    var rest := FailedDeletesUnbounded(Exec(s, first), m, n - 1);
    RunJoin(s, first, rest);
    steps := first + rest;
  }

  // ---------- regeneration ----------

  /** What the success of an attempt for `m` records here. */
  function Recorded(m: Message): TxObject { TxObject(m.Key(), m.height, "tx", 7) }

  /** The transaction of `m` is recorded and final, no scan is going on, and nothing is in the air. */
  ghost predicate Sent(s: State<nat>, m: Message)
  {
    s.flights == map[] && s.scan.left == {} && m.src in s.chains && m.dst in s.chains && s.chains[m.dst].depth > 0 &&
    7 + s.chains[m.dst].depth <= s.chains[m.dst].lastBlock < TWO64 &&
    s.finality == map[DstSlot(m.Key()) := Recorded(m)]
  }

  lemma ScanOfSent(s: State<nat>, m: Message)
    requires Sent(s, m)
    ensures Enabled(s, ScanTx(m.dst)) && ApplyScan(s, m.dst).scan.left == {Recorded(m)}
  {
    var sl := DstSlot(m.Key());
    assert (set sl | sl in s.finality && sl.nid == m.dst) == {sl};
    assert ApplyScan(s, m.dst).scan.left == {s.finality[sl]};
  }

  /** The receipt of a final transaction is bad: the check generates the message again. */
  lemma Regenerate(s: State<nat>, m: Message, o: nat)
    requires Sent(s, m) && o !in s.heap
    ensures var t := ApplyScan(s, m.dst); var step := CheckTx(Recorded(m), Reply(false), true, Some(m), o);
      Enabled(t, step) && Apply(t, step) == Generated(s, m, o)
  {
    ScanOfSent(s, m);
    assert IsFinal(ApplyScan(s, m.dst), Recorded(m));
  }

  ghost function Generated(s: State<nat>, m: Message, o: nat): State<nat>
    requires m.src in s.chains && m.dst in s.chains
  {
    Insert(Withdraw(Checked(ApplyScan(s, m.dst), Recorded(m)), Recorded(m)), m.src, Fresh(m), o)
  }

  lemma GeneratedWaits(s: State<nat>, m: Message, o: nat)
    requires Sent(s, m) && o !in s.heap
    ensures var t := Generated(s, m, o);
      CanTry(t, m, o) && t.finality == map[] && t.scan.left == {} && t.h.dispatched == s.h.dispatched &&
      t.chains[m.dst].depth == s.chains[m.dst].depth > 0 && t.chains[m.dst].lastBlock == s.chains[m.dst].lastBlock
  {
    ScanOfSent(s, m);
    var t := Withdraw(Checked(ApplyScan(s, m.dst), Recorded(m)), Recorded(m));
    assert t.finality == map[];
  }

  lemma SucceedAgain(s: State<nat>, m: Message, o: nat)
    requires CanTry(s, m, o) && s.finality == map[] && s.scan.left == {} && s.chains[m.dst].depth > 0
    requires 7 + s.chains[m.dst].depth <= s.chains[m.dst].lastBlock < TWO64
    ensures var t := InAir(s, m, o); var step := CallbackSuccess(0, "tx", 7, true, true);
      && Enabled(t, step) && Sent(Apply(t, step), m) && Apply(t, step).h.dispatched == s.h.dispatched + 1
      && t.heap[o].e.msg == m
  {
    Try(s, m, o);
    var t := InAir(s, m, o);
    assert Apply(t, CallbackSuccess(0, "tx", 7, true, true)) == Watch(Landed(t, 0), m.src, Recorded(m), true);
  }

  predicate InRegeneration(step: Step<nat>, m: Message)
  {
    step == ScanTx(m.dst) || step == TryStep(m) || step == CallbackSuccess(0, "tx", 7, true, true) ||
    (step.CheckTx? && step.t == Recorded(m) && step.receipt == Reply(false) && step.generated == Some(m))
  }

  lemma RegenerateOnce(s: State<nat>, m: Message) returns (steps: seq<Step<nat>>)
    requires Sent(s, m)
    ensures ValidRun(s, steps) && OnlyTries(steps, m.Key()) && forall step :: step in steps ==> InRegeneration(step, m)
    ensures Sent(Exec(s, steps), m) && Exec(s, steps).h.dispatched == s.h.dispatched + 1
  {
    var o: nat := NewName(s.heap.Keys);
    var scan, check := ScanTx(m.dst), CheckTx(Recorded(m), Reply(false), true, Some(m), o);
    ScanOfSent(s, m);
    Regenerate(s, m, o);
    Two(s, scan, check);
    var rest := SendGenerated(s, m, o);
    RunJoin(s, [scan, check], rest);
    steps := [scan, check] + rest;
  }

  lemma SendGenerated(s: State<nat>, m: Message, o: nat) returns (steps: seq<Step<nat>>)
    requires Sent(s, m) && o !in s.heap
    ensures var t := Generated(s, m, o);
      ValidRun(t, steps) && Sent(Exec(t, steps), m) && Exec(t, steps).h.dispatched == s.h.dispatched + 1
    ensures OnlyTries(steps, m.Key()) && forall step :: step in steps ==> InRegeneration(step, m)
  {
    var t := Generated(s, m, o);
    GeneratedWaits(s, m, o);
    Try(t, m, o);
    SucceedAgain(t, m, o);
    steps := [TryStep(m), CallbackSuccess(0, "tx", 7, true, true)];
    Two(t, steps[0], steps[1]);
  }

  lemma {:induction false} RegenerationsUnbounded(s: State<nat>, m: Message, n: nat) returns (steps: seq<Step<nat>>)
    requires Sent(s, m)
    ensures ValidRun(s, steps) && OnlyTries(steps, m.Key()) && forall step :: step in steps ==> InRegeneration(step, m)
    ensures Sent(Exec(s, steps), m) && Exec(s, steps).h.dispatched == s.h.dispatched + n
    decreases n
  {
    if n == 0 { return []; }
    var first := RegenerateOnce(s, m);
    var rest := RegenerationsUnbounded(Exec(s, first), m, n - 1);
    RunJoin(s, first, rest);
    steps := first + rest;
  }

  // ---------- a delivery reaches the store ----------

  /** Attempts that do not end the round. */
  lemma {:induction false} FailTimes(s: State<nat>, m: Message, o: nat, n: nat) returns (steps: seq<Step<nat>>)
    requires CanTry(s, m, o) && s.heap[o].e.retry + n <= 2
    ensures ValidRun(s, steps) && OnlyTries(steps, m.Key())
    ensures var t := Exec(s, steps);
      CanTry(t, m, o) && t.heap[o].e.retry == s.heap[o].e.retry + n && t.messages == s.messages
    decreases n
  {
    if n == 0 { return []; }
    var first := TryAndFail(s, m, o, true);
    WaitsAgain(s, m, o, true);
    var rest := FailTimes(Exec(s, first), m, o, n - 1);
    RunJoin(s, first, rest);
    steps := first + rest;
  }

  lemma ShelveFromCache(s: State<nat>, m: Message, o: nat) returns (steps: seq<Step<nat>>)
    requires CanTry(s, m, o) && s.heap[o].e.retry == 2 && s.messages == map[]
    ensures ValidRun(s, steps) && OnlyTries(steps, m.Key())
    ensures var t := Exec(s, steps);
      t.flights == map[] && t.messages == map[SrcSlot(m.Key()) := Entry(m, 3, false)] && m.src in t.chains &&
      m.dst in t.chains
  {
    steps := TryAndFail(s, m, o, true);
    GoesToStore(s, m, o);
  }

  /** Three attempts that fail: the message goes to the store at Retry 3. */
  lemma DeliveryIsShelved(s: State<nat>, m: Message) returns (steps: seq<Step<nat>>)
    requires WellFormed(s) && Quiet(s, m) && s.messages == map[]
    ensures ValidRun(s, steps) && OnlyTries(steps, m.Key()) && Shelved(Exec(s, steps), m)
  {
    var o: nat := NewName(s.heap.Keys);
    var delivery := Deliver(s, m, o);
    var t := Exec(s, delivery);
    var twice := FailTimes(t, m, o, 2);
    var last := ShelveFromCache(Exec(t, twice), m, o);
    RunJoin(t, twice, last);
    RunJoin(s, delivery, twice + last);
    steps := delivery + (twice + last);
    RunWellFormed(s, steps);
  }

  lemma GoesToStore(s: State<nat>, m: Message, o: nat)
    requires CanTry(s, m, o) && s.heap[o].e.retry == 2 && s.messages == map[]
    ensures var t := Fail(Landed(InAir(s, m, o), 0), o, m.src, true);
      t.flights == map[] && t.messages == map[SrcSlot(m.Key()) := Entry(m, 3, false)] && t.chains.Keys == s.chains.Keys
  {
    Try(s, m, o);
  }
}
