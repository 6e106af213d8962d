/** The finality store is keyed by destination and number, and two sources may use one number:
    a run that loses a message. */
module RelayOverwrite {
  import opened Types
  import opened RelaySpec
  import opened RelayNoLoss
  import opened RelayAttempts

  /** The same chains, and the same caches but for that of `nid`. */
  ghost predicate Alike(s: State<nat>, t: State<nat>, nid: string)
  {
    t.chains.Keys == s.chains.Keys && forall n :: n in s.chains ==> AlikeChain(s.chains[n], t.chains[n], n == nid)
  }

  ghost predicate AlikeChain(c: Chain<nat>, d: Chain<nat>, cacheMayDiffer: bool)
  {
    d.depth == c.depth && (c.lastSaved < TWO64 ==> d.lastSaved < TWO64) && (cacheMayDiffer || d.cache == c.cache)
  }

  /** The relayer is idle, and can relay `m` to a chain with a finality depth. */
  ghost predicate CanRelay(s: State<nat>, m: Message)
  {
    s.flights == map[] && s.pending == multiset{} && m.src in s.chains && m.dst in s.chains &&
    s.chains[m.src].lastSaved < TWO64 && s.chains[m.dst].depth > 0 && s.chains[m.src].cache == map[]
  }

  /** What is left when it has done so: the tx object, and nothing else of the message. */
  ghost predicate HasRelayed(s: State<nat>, t: State<nat>, m: Message)
  {
    m.src in s.chains && Alike(s, t, m.src) && t.chains[m.src].cache == map[] && t.flights == map[] &&
    t.pending == multiset{} && t.messages == s.messages - {SrcSlot(m.Key())} &&
    t.finality == s.finality[DstSlot(m.Key()) := TxObject(m.Key(), m.height, "tx", 7)] &&
    t.h.known == s.h.known + {m.Key()} && t.h.confirmed == s.h.confirmed && t.h.unknownDst == s.h.unknownDst &&
    t.h.notRegenerated == s.h.notRegenerated
  }

  lemma Block(s: State<nat>, m: Message)
    requires CanRelay(s, m)
    ensures Enabled(s, ProcessBlock(m.src, 100, [m], true))
    ensures var t := ApplyBlock(s, m.src, 100, [m], true);
      Alike(s, t, m.src) && t.chains[m.src].cache == map[] && t.flights == map[] && t.pending == multiset{m} &&
      t.heap == s.heap &&
      t.messages == s.messages && t.finality == s.finality && t.h == s.h.(known := s.h.known + {m.Key()})
  {
    var t := ApplyBlock(s, m.src, 100, [m], true);
    assert multiset([m]) == multiset{m};
    assert (set m' | m' in [m] :: m'.Key()) == {m.Key()};
  }

  lemma Dispatched(s: State<nat>, m: Message, o: nat)
    requires Cached(s, m.src, m.Key()) && s.chains[m.src].cache[m.Key()] == o && o in s.heap && s.heap[o].e == Fresh(m)
    requires m.dst in s.chains && s.flights == map[]
    ensures var step := Process(m.src, m.Key(), true, Reply(false), true, 0);
      Enabled(s, step) && Apply(s, step) == Launch(s, m.src, o, 0)
  {
  }

  lemma Succeeded(s: State<nat>, m: Message, o: nat)
    requires Cached(s, m.src, m.Key()) && s.chains[m.src].cache[m.Key()] == o && o in s.heap && s.heap[o].e.msg == m
    requires m.dst in s.chains && s.chains[m.dst].depth > 0 && s.flights == map[0 := Flight(o, m.Key(), m.src, m.dst)]
    ensures var step := CallbackSuccess(0, "tx", 7, true, true);
      Enabled(s, step) && Apply(s, step) == Watch(Landed(s, 0), m.src, TxObject(m.Key(), m.height, "tx", 7), true)
  {
  }

  /** The relayer after merge, dispatch and success of a message. */
  ghost function After(s: State<nat>, m: Message, o: nat): State<nat>
    requires m.src in s.chains
  {
    var s1 := Insert(s.(pending := multiset{}), m.src, Fresh(m), o);
    Watch(Landed(Launch(s1, m.src, o, 0), 0), m.src, TxObject(m.Key(), m.height, "tx", 7), true)
  }

  lemma AfterIs(s: State<nat>, m: Message, o: nat)
    requires m.src in s.chains && s.chains[m.src].cache == map[] && s.flights == map[]
    ensures var t := After(s, m, o);
      t.chains == s.chains && t.flights == map[] && t.pending == multiset{} &&
      t.messages == s.messages - {SrcSlot(m.Key())} &&
      t.finality == s.finality[DstSlot(m.Key()) := TxObject(m.Key(), m.height, "tx", 7)] &&
      t.h == s.h.(dispatched := s.h.dispatched + 1)
  {
    var s1 := Insert(s.(pending := multiset{}), m.src, Fresh(m), o);
    var s2 := Landed(Launch(s1, m.src, o, 0), 0);
    assert s2.flights == map[];
    assert s2.chains[m.src] == s.chains[m.src].(cache := map[m.Key() := o]);
    assert After(s, m, o).chains[m.src].cache == map[];
  }

  /** Merge, dispatch and success of the only message that waits. */
  lemma Rest(s: State<nat>, m: Message, o: nat) returns (steps: seq<Step<nat>>)
    requires m.src in s.chains && m.dst in s.chains && s.chains[m.dst].depth > 0
    requires s.flights == map[] && s.pending == multiset{m} && o !in s.heap
    ensures ValidRun(s, steps) && Exec(s, steps) == After(s, m, o)
  {
    var a := Merge(m, o);
    var s1 := Insert(s.(pending := multiset{}), m.src, Fresh(m), o);
    assert s.pending - multiset{m} == multiset{};
    assert Apply(s, a) == s1;
    var b := Process(m.src, m.Key(), true, Reply(false), true, 0);
    var s2 := Launch(s1, m.src, o, 0);
    Dispatched(s1, m, o);
    var c := CallbackSuccess(0, "tx", 7, true, true);
    Succeeded(s2, m, o);
    Prepend(s2, c, []);
    Prepend(s1, b, [c] + []);
    Prepend(s, a, [b] + ([c] + []));
    steps := [a] + ([b] + ([c] + []));
  }

  lemma RelayOne(s: State<nat>, m: Message) returns (steps: seq<Step<nat>>)
    requires CanRelay(s, m)
    ensures ValidRun(s, steps) && HasRelayed(s, Exec(s, steps), m)
  {
    var block := ProcessBlock(m.src, 100, [m], true);
    Block(s, m);
    var o: nat := NewName(s.heap.Keys);
    var rest := Rest(Apply(s, block), m, o);
    AfterIs(Apply(s, block), m, o);
    Prepend(s, block, rest);
    steps := [block] + rest;
  }

  /** Two messages from different sources, for one destination, with one number: relaying the second
      one leaves the first one nowhere, and nothing says why. Sources number their messages here. */
  lemma SharedNumberLosesMessage(s: State<nat>, m: Message, m': Message)
    returns (first: seq<Step<nat>>, second: seq<Step<nat>>)
    requires CanRelay(s, m) && CanRelay(s, m') && m.src != m'.src && m.dst == m'.dst && m.sn == m'.sn
    requires s.h.known == s.h.confirmed == s.h.unknownDst == s.h.notRegenerated == {} && s.messages == map[]
    ensures ValidRun(s, first) && ValidRun(Exec(s, first), second)
    ensures var t := Exec(Exec(s, first), second);
      Numbered(t.h.known) && m.Key() in t.h.known && !Accounted(t, m.Key())
  {
    first := RelayOne(s, m);
    var t := Exec(s, first);
    second := RelayOne(t, m');
    var u := Exec(t, second);
    var k := m.Key();
    assert !Cached(u, k.src, k) && !Awaiting(u, k) && !Watched(u, k);
  }
}
