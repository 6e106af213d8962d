/** A finality check deletes by key what it scanned by value: a run that deletes a tx object which is
    not final. */
module RelayStaleScan {
  import opened Types
  import opened RelaySpec
  import opened RelayAttempts
  import opened RelayEndless
  import opened RelayInvariants
  import opened RelayRuns

  /** The relayer starts on a database in which an earlier session recorded the transaction of `m`,
      but failed to delete its message. */
  ghost predicate LeftBoth(s: State<nat>, m: Message, x: TxObject)
  {
    Init(s) && m.src in s.chains && m.dst in s.chains && s.chains[m.dst].depth > 0 && x.txHeight > 0 &&
    x.key == m.Key() &&
    s.messages == map[SrcSlot(m.Key()) := Entry(m, 3, false)] && s.finality == map[DstSlot(m.Key()) := x]
  }

  /** The same in the middle of a session, with the last block of the destination. */
  ghost predicate SeesBoth(s: State<nat>, m: Message, x: TxObject, height: nat)
  {
    s.flights == map[] && s.scan.left == {} && m.src in s.chains && m.dst in s.chains && x.txHeight > 0 &&
    x.key == m.Key() && s.chains[m.dst].depth > 0 && s.chains[m.dst].lastBlock == height &&
    x.txHeight + s.chains[m.dst].depth <= height < TWO64 &&
    s.messages == map[SrcSlot(m.Key()) := Entry(m, 3, false)] && s.finality == map[DstSlot(m.Key()) := x]
  }

  lemma FirstBlock(s: State<nat>, m: Message, x: TxObject, height: nat)
    requires LeftBoth(s, m, x) && x.txHeight + s.chains[m.dst].depth <= height < TWO64
    ensures Enabled(s, ProcessBlock(m.dst, height, [], true))
    ensures SeesBoth(ApplyBlock(s, m.dst, height, [], true), m, x, height)
    ensures ApplyBlock(s, m.dst, height, [], true).chains[m.dst].depth == s.chains[m.dst].depth
  {
  }

  lemma FlushSeen(s: State<nat>, m: Message, x: TxObject, height: nat, o: nat)
    requires SeesBoth(s, m, x, height) && o !in s.heap
    ensures var step := Flush(m.src, [SrcSlot(m.Key())], [o]); var t := Insert(s, m.src, Entry(m, 3, false), o);
      Enabled(s, step) && Apply(s, step) == t && SeesBoth(t, m, x, height) && CanTry(t, m, o)
  {
    FlushBack(s, m, 3, o);
  }

  /** The attempt is in the air, and the scan has seen `x`. */
  ghost predicate Scanning(s: State<nat>, m: Message, x: TxObject, height: nat, o: nat)
  {
    m.src in s.chains && m.dst in s.chains && s.flights == map[0 := Flight(o, m.Key(), m.src, m.dst)] &&
    CanLand(s, 0) &&
    Cached(s, m.src, m.Key()) && s.chains[m.src].cache[m.Key()] == o && o in s.heap && s.heap[o].e.msg == m &&
    s.chains[m.dst].depth > 0 && s.chains[m.dst].lastBlock == height && x.txHeight > 0 && x.key == m.Key() &&
    x.txHeight + s.chains[m.dst].depth <= height < TWO64 && s.scan == TxScan(m.dst, height, {x})
  }

  lemma TryAndScan(s: State<nat>, m: Message, x: TxObject, height: nat, o: nat)
    requires SeesBoth(s, m, x, height) && CanTry(s, m, o)
    ensures Enabled(s, TryStep(m)) && Apply(s, TryStep(m)) == InAir(s, m, o) && Enabled(InAir(s, m, o), ScanTx(m.dst))
    ensures Scanning(ApplyScan(InAir(s, m, o), m.dst), m, x, height, o)
  {
    Try(s, m, o);
    var t := InAir(s, m, o);
    var sl := DstSlot(m.Key());
    assert (set sl | sl in t.finality && sl.nid == m.dst) == {sl};
    assert ApplyScan(t, m.dst).scan.left == {t.finality[sl]};
  }

  /** The success records the newer transaction at the last block. */
  function Newer(m: Message, height: nat): TxObject { TxObject(m.Key(), m.height, "newer", height) }

  lemma SucceedWhileScanned(s: State<nat>, m: Message, x: TxObject, height: nat, o: nat)
    requires Scanning(s, m, x, height, o)
    ensures var step := CallbackSuccess(0, "newer", height, true, true);
      var t := Watch(Landed(s, 0), m.src, Newer(m, height), true);
      Enabled(s, step) && Apply(s, step) == t && t.scan == s.scan && t.heap == s.heap &&
      t.chains.Keys == s.chains.Keys &&
      t.chains[m.dst].depth == s.chains[m.dst].depth && t.chains[m.dst].lastBlock == height &&
      t.finality == s.finality[DstSlot(m.Key()) := Newer(m, height)]
  {
  }

  lemma CheckOld(s: State<nat>, m: Message, x: TxObject, height: nat, o: nat)
    requires s.scan == TxScan(m.dst, height, {x}) && m.dst in s.chains && s.chains[m.dst].depth > 0 && o !in s.heap
    requires x.txHeight > 0 && x.key == m.Key() && x.txHeight + s.chains[m.dst].depth <= height < TWO64
    ensures var step := CheckTx(x, Reply(true), true, None, o);
      Enabled(s, step) && DstSlot(m.Key()) !in Apply(s, step).finality
  {
    assert IsFinal(s, x);
  }

  /** The check is for `x`, but deletes a record that is not final, not even for the last block of now. */
  ghost predicate DeletesEarly(s: State<nat>, check: Step<nat>, m: Message, x: TxObject)
  {
    var sl := DstSlot(m.Key());
    && Enabled(s, check) && check.CheckTx? && check.t == x && sl in s.finality && sl !in Apply(s, check).finality
    && m.dst in s.chains && Add64(s.finality[sl].txHeight, s.chains[m.dst].depth) > s.chains[m.dst].lastBlock
  }

  /** From such a start: the message that was left behind is sent again, and its success records a newer
      transaction between a scan and the check of what the scan saw. The check deletes the newer record. */
  lemma NewerTxObjectDeletedEarly(s: State<nat>, m: Message, x: TxObject, height: nat)
    returns (steps: seq<Step<nat>>, check: Step<nat>)
    requires LeftBoth(s, m, x) && x.txHeight + s.chains[m.dst].depth <= height
    requires height + s.chains[m.dst].depth < TWO64
    ensures ValidRun(s, steps) && DeletesEarly(Exec(s, steps), check, m, x)
  {
    var block := ProcessBlock(m.dst, height, [], true);
    FirstBlock(s, m, x, height);
    var a := ApplyBlock(s, m.dst, height, [], true);
    var rest;
    rest, check := SendAgain(a, m, x, height);
    Prepend(s, block, rest);
    steps := [block] + rest;
  }

  lemma SendAgain(s: State<nat>, m: Message, x: TxObject, height: nat)
    returns (steps: seq<Step<nat>>, check: Step<nat>)
    requires SeesBoth(s, m, x, height) && height + s.chains[m.dst].depth < TWO64
    ensures ValidRun(s, steps) && DeletesEarly(Exec(s, steps), check, m, x)
  {
    var o: nat := NewName(s.heap.Keys);
    var flush := Flush(m.src, [SrcSlot(m.Key())], [o]);
    FlushSeen(s, m, x, height, o);
    var rest;
    rest, check := ScanThenSucceed(Insert(s, m.src, Entry(m, 3, false), o), m, x, height, o);
    Prepend(s, flush, rest);
    steps := [flush] + rest;
  }

  lemma ScanThenSucceed(s: State<nat>, m: Message, x: TxObject, height: nat, o: nat)
    returns (steps: seq<Step<nat>>, check: Step<nat>)
    requires SeesBoth(s, m, x, height) && CanTry(s, m, o) && height + s.chains[m.dst].depth < TWO64
    ensures ValidRun(s, steps) && DeletesEarly(Exec(s, steps), check, m, x)
  {
    TryAndScan(s, m, x, height, o);
    var a := InAir(s, m, o);
    var b := ApplyScan(a, m.dst);
    SucceedWhileScanned(b, m, x, height, o);
    var success := CallbackSuccess(0, "newer", height, true, true);
    Two(a, ScanTx(m.dst), success);
    Prepend(s, TryStep(m), [ScanTx(m.dst), success]);
    steps := [TryStep(m)] + [ScanTx(m.dst), success];
    check := CheckNewer(Exec(s, steps), m, x, height);
  }

  lemma CheckNewer(s: State<nat>, m: Message, x: TxObject, height: nat) returns (check: Step<nat>)
    requires s.scan == TxScan(m.dst, height, {x}) && m.dst in s.chains && s.chains[m.dst].depth > 0
    requires x.txHeight > 0 && x.key == m.Key() && x.txHeight + s.chains[m.dst].depth <= height
    requires height + s.chains[m.dst].depth < TWO64 && s.chains[m.dst].lastBlock == height
    requires DstSlot(m.Key()) in s.finality && s.finality[DstSlot(m.Key())] == Newer(m, height)
    ensures DeletesEarly(s, check, m, x)
  {
    var o: nat := NewName(s.heap.Keys);
    CheckOld(s, m, x, height, o);
    check := CheckTx(x, Reply(true), true, None, o);
  }
}
