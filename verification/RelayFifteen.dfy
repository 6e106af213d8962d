/** The limit of fifteen attempts is reached: a message that is delivered once, and fails every time. */
module RelayFifteen {
  import opened Types
  import opened RelaySpec
  import opened RelayInvariants
  import opened RelayNoLoss
  import opened RelayFlight
  import opened RelayLife
  import opened RelayAttempts
  import opened RelayRuns
  import opened RelayEndless

  /** An orderly run to `t` with `n` attempts for the message. */
  ghost predicate Does<O>(s: State<O>, steps: seq<Step<O>>, t: State<O>, k: MessageKey, n: nat)
  {
    ValidRun(s, steps) && Exec(s, steps) == t && OrderlyRun(s, steps, k) && CountTries(s, steps, k) == n
  }

  lemma DoesNothing<O>(s: State<O>, k: MessageKey)
    ensures Does(s, [], s, k, 0)
  {
  }

  lemma OrderlyHead<O>(s: State<O>, step: Step<O>, rest: seq<Step<O>>, k: MessageKey)
    requires Enabled(s, step) && ValidRun(Apply(s, step), rest)
    ensures ValidRun(s, [step] + rest)
    ensures OrderlyRun(s, [step] + rest, k) <==> Orderly(s, step, k) && OrderlyRun(Apply(s, step), rest, k)
  {
    assert ([step] + rest)[1..] == rest;
  }

  lemma TriesHead<O>(s: State<O>, step: Step<O>, rest: seq<Step<O>>, k: MessageKey)
    requires Enabled(s, step) && ValidRun(Apply(s, step), rest)
    ensures ValidRun(s, [step] + rest)
    ensures CountTries(s, [step] + rest, k) ==
      (if Tries(s, step, k) then 1 else 0) + CountTries(Apply(s, step), rest, k)
  {
    assert ([step] + rest)[1..] == rest;
  }

  lemma DoesStep<O>(s: State<O>, step: Step<O>, rest: seq<Step<O>>, u: State<O>, k: MessageKey, n: nat)
    requires Enabled(s, step) && Orderly(s, step, k) && Does(Apply(s, step), rest, u, k, n)
    ensures Does(s, [step] + rest, u, k, n + if Tries(s, step, k) then 1 else 0)
  {
    Prepend(s, step, rest);
    OrderlyHead(s, step, rest, k);
    TriesHead(s, step, rest, k);
  }

  lemma JoinHead<O>(s: State<O>, a: seq<Step<O>>, b: seq<Step<O>>, k: MessageKey)
    requires a != [] && Enabled(s, a[0]) && ValidRun(Apply(s, a[0]), a[1..] + b)
    ensures ValidRun(s, a + b)
    ensures OrderlyRun(s, a + b, k) <==> Orderly(s, a[0], k) && OrderlyRun(Apply(s, a[0]), a[1..] + b, k)
    ensures CountTries(s, a + b, k) ==
      (if Tries(s, a[0], k) then 1 else 0) + CountTries(Apply(s, a[0]), a[1..] + b, k)
  {
    assert (a + b)[1..] == a[1..] + b;
  }

  lemma JoinTail<O>(s: State<O>, a: seq<Step<O>>, k: MessageKey)
    requires a != [] && ValidRun(s, a)
    ensures OrderlyRun(s, a, k) <==> Orderly(s, a[0], k) && OrderlyRun(Apply(s, a[0]), a[1..], k)
    ensures CountTries(s, a, k) == (if Tries(s, a[0], k) then 1 else 0) + CountTries(Apply(s, a[0]), a[1..], k)
  {
  }

  /** Orderly runs, and attempts, add up. */
  lemma {:induction false} OrderlyJoin<O>(s: State<O>, a: seq<Step<O>>, b: seq<Step<O>>, k: MessageKey)
    requires ValidRun(s, a) && ValidRun(Exec(s, a), b)
    ensures ValidRun(s, a + b)
    ensures OrderlyRun(s, a + b, k) <==> OrderlyRun(s, a, k) && OrderlyRun(Exec(s, a), b, k)
    ensures CountTries(s, a + b, k) == CountTries(s, a, k) + CountTries(Exec(s, a), b, k)
    decreases |a|
  {
    if a == [] {
      assert a + b == b;
    } else {
      RunTail(s, a);
      OrderlyJoin(Apply(s, a[0]), a[1..], b, k);
      JoinHead(s, a, b, k);
      JoinTail(s, a, k);
    }
  }

  lemma DoesJoin<O>(s: State<O>, a: seq<Step<O>>, t: State<O>, b: seq<Step<O>>, u: State<O>, k: MessageKey,
                    n: nat, n': nat)
    requires Does(s, a, t, k, n) && Does(t, b, u, k, n')
    ensures Does(s, a + b, u, k, n + n')
  {
    RunJoin(s, a, b);
    OrderlyJoin(s, a, b, k);
  }

  lemma AttemptFails(s: State<nat>, m: Message, o: nat) returns (steps: seq<Step<nat>>)
    requires CanTry(s, m, o)
    ensures Does(s, steps, Fail(Landed(InAir(s, m, o), 0), o, m.src, true), m.Key(), 1)
  {
    Try(s, m, o);
    var t := InAir(s, m, o);
    var u := Fail(Landed(t, 0), o, m.src, true);
    var fail := RouteError(0, true);
    DoesNothing(u, m.Key());
    assert Enabled(t, fail) && Apply(t, fail) == u && Orderly(t, fail, m.Key()) && !Tries(t, fail, m.Key());
    DoesStep(t, fail, [], u, m.Key(), 0);
    assert Orderly(s, TryStep(m), m.Key()) && Tries(s, TryStep(m), m.Key());
    DoesStep(s, TryStep(m), [fail] + [], u, m.Key(), 0);
    steps := [TryStep(m)] + ([fail] + []);
  }

  /** The message waits for its attempt number `retry + 1`. */
  ghost predicate Waits(s: State<nat>, m: Message, o: nat, retry: nat) { CanTry(s, m, o) && s.heap[o].e.retry == retry }

  /** The message is in the store only, after `retry` attempts. */
  ghost predicate Rests(s: State<nat>, m: Message, retry: nat)
  {
    s.flights == map[] && m.src in s.chains && m.dst in s.chains && !Cached(s, m.src, m.Key()) &&
    s.messages == map[SrcSlot(m.Key()) := Entry(m, retry, false)]
  }

  lemma LastFails(s: State<nat>, m: Message, o: nat, retry: nat)
    requires Waits(s, m, o, retry) && retry % 3 == 2 && s.messages.Keys <= {SrcSlot(m.Key())}
    ensures Rests(Fail(Landed(InAir(s, m, o), 0), o, m.src, true), m, retry + 1)
  {
    Try(s, m, o);
  }

  lemma FailAndWait(s: State<nat>, m: Message, o: nat, retry: nat) returns (steps: seq<Step<nat>>, t: State<nat>)
    requires Waits(s, m, o, retry) && retry % 3 != 2
    ensures Does(s, steps, t, m.Key(), 1) && Waits(t, m, o, retry + 1) && t.messages == s.messages
  {
    steps := AttemptFails(s, m, o);
    WaitsAgain(s, m, o, true);
    t := Fail(Landed(InAir(s, m, o), 0), o, m.src, true);
  }

  lemma FailAndRest(s: State<nat>, m: Message, o: nat, retry: nat) returns (steps: seq<Step<nat>>, t: State<nat>)
    requires Waits(s, m, o, retry) && retry % 3 == 2 && s.messages.Keys <= {SrcSlot(m.Key())}
    ensures Does(s, steps, t, m.Key(), 1) && Rests(t, m, retry + 1)
  {
    steps := AttemptFails(s, m, o);
    LastFails(s, m, o, retry);
    t := Fail(Landed(InAir(s, m, o), 0), o, m.src, true);
  }

  lemma Round(s: State<nat>, m: Message, o: nat, retry: nat) returns (steps: seq<Step<nat>>, t: State<nat>)
    requires Waits(s, m, o, retry) && retry % 3 == 0 && s.messages.Keys <= {SrcSlot(m.Key())}
    ensures Does(s, steps, t, m.Key(), 3) && Rests(t, m, retry + 3)
  {
    var first, a := FailAndWait(s, m, o, retry);
    var second, b := FailAndWait(a, m, o, retry + 1);
    var third, c := FailAndRest(b, m, o, retry + 2);
    DoesJoin(a, second, b, third, c, m.Key(), 1, 1);
    DoesJoin(s, first, a, second + third, c, m.Key(), 1, 2);
    steps, t := first + (second + third), c;
  }

  lemma FlushAndWait(s: State<nat>, m: Message, retry: nat) returns (step: Step<nat>, o: nat)
    requires Rests(s, m, retry) && retry < 15
    ensures Enabled(s, step) && Orderly(s, step, m.Key()) && !Tries(s, step, m.Key())
    ensures Waits(Apply(s, step), m, o, retry) && Apply(s, step).messages == s.messages
  {
    o := NewName(s.heap.Keys);
    step := Flush(m.src, [SrcSlot(m.Key())], [o]);
    FlushBack(s, m, retry, o);
  }

  /** Five rounds, with a flush between. */
  lemma {:induction false} Rounds(s: State<nat>, m: Message, o: nat, retry: nat)
    returns (steps: seq<Step<nat>>, t: State<nat>)
    requires Waits(s, m, o, retry) && retry % 3 == 0 && retry < 15 && s.messages.Keys <= {SrcSlot(m.Key())}
    ensures Does(s, steps, t, m.Key(), 15 - retry) && Rests(t, m, 15)
    decreases 15 - retry
  {
    var round, u := Round(s, m, o, retry);
    if retry == 12 { return round, u; }
    var flush, o' := FlushAndWait(u, m, retry + 3);
    var rest;
    rest, t := Rounds(Apply(u, flush), m, o', retry + 3);
    DoesStep(u, flush, rest, t, m.Key(), 12 - retry);
    DoesJoin(s, round, u, [flush] + rest, t, m.Key(), 3, 12 - retry);
    steps := round + ([flush] + rest);
  }

  /** A relayer that is idle, with an empty message store, gets a new message, and every attempt fails: an
      orderly run tries it fifteen times, and leaves it in the store for good. */
  lemma FifteenReached(s: State<nat>, m: Message) returns (block: Step<nat>, steps: seq<Step<nat>>)
    requires Quiet(s, m) && s.messages == map[]
    ensures block.ProcessBlock? && block.msgs == [m] && Enabled(s, block) && ValidRun(Apply(s, block), steps)
    ensures OrderlyRun(Apply(s, block), steps, m.Key()) && CountTries(Apply(s, block), steps, m.Key()) == 15
    ensures Rests(Exec(Apply(s, block), steps), m, 15)
  {
    block := ProcessBlock(m.src, 100, [m], true);
    Delivered(s, m);
    var t := ApplyBlock(s, m.src, 100, [m], true);
    var o: nat := NewName(t.heap.Keys);
    Merged(t, m, o);
    var u := Insert(t.(pending := t.pending - multiset{m}), m.src, Fresh(m), o);
    var rounds, v := Rounds(u, m, o, 0);
    assert Enabled(t, Merge(m, o)) && Apply(t, Merge(m, o)) == u && Orderly(t, Merge(m, o), m.Key());
    DoesStep(t, Merge(m, o), rounds, v, m.Key(), 15);
    steps := [Merge(m, o)] + rounds;
  }
}
