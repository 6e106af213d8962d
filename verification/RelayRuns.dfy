/** Runs put together, for the loops of the relayer. */
module RelayRuns {
  import opened Types
  import opened RelaySpec
  import opened RelayHeights
  import opened RelayInvariants
  import opened RelayNoLoss

  ghost predicate Reaches<O>(s: State<O>, steps: seq<Step<O>>, t: State<O>) {
    ValidRun(s, steps) && Exec(s, steps) == t
  }

  lemma RunTail<O>(s: State<O>, steps: seq<Step<O>>)
    requires ValidRun(s, steps) && steps != []
    ensures Enabled(s, steps[0]) && ValidRun(Apply(s, steps[0]), steps[1..])
    ensures Exec(s, steps) == Exec(Apply(s, steps[0]), steps[1..])
  {
  }

  lemma RunHead<O>(s: State<O>, steps: seq<Step<O>>, more: seq<Step<O>>)
    requires steps != [] && Enabled(s, steps[0]) && ValidRun(Apply(s, steps[0]), steps[1..] + more)
    ensures ValidRun(s, steps + more) && Exec(s, steps + more) == Exec(Apply(s, steps[0]), steps[1..] + more)
  {
    assert (steps + more)[1..] == steps[1..] + more;
  }

  lemma {:induction false} RunJoin<O>(s: State<O>, steps: seq<Step<O>>, more: seq<Step<O>>)
    requires ValidRun(s, steps) && ValidRun(Exec(s, steps), more)
    ensures ValidRun(s, steps + more) && Exec(s, steps + more) == Exec(Exec(s, steps), more)
    decreases |steps|
  {
    if steps == [] {
      assert steps + more == more;
    } else {
      RunTail(s, steps);
      RunJoin(Apply(s, steps[0]), steps[1..], more);
      RunHead(s, steps, more);
    }
  }

  lemma ReachesNext<O>(s: State<O>, steps: seq<Step<O>>, t: State<O>, step: Step<O>)
    requires Reaches(s, steps, t) && Enabled(t, step)
    ensures Reaches(s, steps + [step], Apply(t, step))
  {
    assert [step][1..] == [];
    RunJoin(s, steps, [step]);
  }

  // One lemma for each kind of step.

  lemma BlockNext<O>(s: State<O>, steps: seq<Step<O>>, t: State<O>, nid: string, height: nat, msgs: seq<Message>,
                     writeOk: bool)
    requires Reaches(s, steps, t) && Enabled(t, ProcessBlock(nid, height, msgs, writeOk))
    ensures Reaches(s, steps + [ProcessBlock(nid, height, msgs, writeOk)], ApplyBlock(t, nid, height, msgs, writeOk))
  {
    ReachesNext(s, steps, t, ProcessBlock(nid, height, msgs, writeOk));
  }

  lemma MergeNext<O>(s: State<O>, steps: seq<Step<O>>, t: State<O>, m: Message, o: O)
    requires Reaches(s, steps, t) && Enabled(t, Merge(m, o))
    ensures Reaches(s, steps + [Merge(m, o)], Insert(t.(pending := t.pending - multiset{m}), m.src, Fresh(m), o))
  {
    ReachesNext(s, steps, t, Merge(m, o));
  }

  lemma FlushNext<O>(s: State<O>, steps: seq<Step<O>>, t: State<O>, nid: string, listing: seq<Slot>, os: seq<O>)
    requires Reaches(s, steps, t) && Enabled(t, Flush(nid, listing, os))
    ensures Reaches(s, steps + [Flush(nid, listing, os)], InsertAll(t, nid, Active(Entries(t.messages, listing)), os))
  {
    ReachesNext(s, steps, t, Flush(nid, listing, os));
  }

  lemma ProcessNext<O>(s: State<O>, steps: seq<Step<O>>, t: State<O>, nid: string, k: MessageKey, willing: bool,
                       received: Answer<bool>, deleteOk: bool, fid: nat)
    requires Reaches(s, steps, t) && Enabled(t, Process(nid, k, willing, received, deleteOk, fid))
    ensures Reaches(s, steps + [Process(nid, k, willing, received, deleteOk, fid)],
                    ApplyProcess(t, nid, k, willing, received, deleteOk, fid))
  {
    ReachesNext(s, steps, t, Process(nid, k, willing, received, deleteOk, fid));
  }

  lemma RouteErrorNext<O>(s: State<O>, steps: seq<Step<O>>, t: State<O>, fid: nat, storeOk: bool)
    requires Reaches(s, steps, t) && CanLand(t, fid)
    ensures Reaches(s, steps + [RouteError(fid, storeOk)],
      Fail(Landed(t, fid), t.flights[fid].obj, t.flights[fid].src, storeOk))
  {
    ReachesNext(s, steps, t, RouteError(fid, storeOk));
  }

  lemma FailureNext<O>(s: State<O>, steps: seq<Step<O>>, t: State<O>, fid: nat, storeOk: bool)
    requires Reaches(s, steps, t) && CanLand(t, fid)
    ensures var f := t.flights[fid];
      Reaches(s, steps + [CallbackFailure(fid, storeOk)],
              if f.key in t.chains[f.src].cache
              then Fail(Landed(t, fid), t.chains[f.src].cache[f.key], f.src, storeOk)
              else Landed(t, fid))
  {
    ReachesNext(s, steps, t, CallbackFailure(fid, storeOk));
  }

  lemma SuccessNext<O>(s: State<O>, steps: seq<Step<O>>, t: State<O>, fid: nat, txHash: string, txHeight: nat,
                       writeOk: bool, deleteOk: bool)
    requires Reaches(s, steps, t) && CanLand(t, fid)
    ensures Reaches(s, steps + [CallbackSuccess(fid, txHash, txHeight, writeOk, deleteOk)],
                    ApplySuccess(t, fid, txHash, txHeight, writeOk, deleteOk))
  {
    ReachesNext(s, steps, t, CallbackSuccess(fid, txHash, txHeight, writeOk, deleteOk));
  }

  lemma ScanNext<O>(s: State<O>, steps: seq<Step<O>>, t: State<O>, nid: string)
    requires Reaches(s, steps, t) && Enabled(t, ScanTx(nid))
    ensures Reaches(s, steps + [ScanTx(nid)], ApplyScan(t, nid))
  {
    ReachesNext(s, steps, t, ScanTx(nid));
  }

  lemma CheckNext<O>(s: State<O>, steps: seq<Step<O>>, t: State<O>, x: TxObject, receipt: Answer<bool>, deleteOk: bool,
                     generated: Option<Message>, o: O)
    requires Reaches(s, steps, t) && Enabled(t, Step.CheckTx(x, receipt, deleteOk, generated, o))
    ensures Reaches(s, steps + [Step.CheckTx(x, receipt, deleteOk, generated, o)],
      ApplyCheck(t, x, receipt, deleteOk, generated, o))
  {
    ReachesNext(s, steps, t, Step.CheckTx(x, receipt, deleteOk, generated, o));
  }

  /** What is true of every state that a relayer reaches. */
  lemma Reached<O>(s: State<O>, steps: seq<Step<O>>, t: State<O>)
    requires Init(s) && Reaches(s, steps, t)
    ensures WellFormed(t) && s.h.known <= t.h.known
    ensures Numbered(t.h.known) && NumberedAtDestination(t.h.known) ==> NoLoss(t)
  {
    InitWellFormed(s);
    InitNoLoss(s);
    RunWellFormed(s, steps);
    KnownGrows(s, steps);
    if Numbered(t.h.known) && NumberedAtDestination(t.h.known) {
      DistinctNumbersHoldVictims(s, steps);
      NothingLostIff(s, steps);
      AlwaysAtTheEnd(s, steps);
    }
  }

  // ---------- the next session ----------

  /** A relayer that is started, with any chains, on the database that a state leaves behind. */
  ghost function Restarted<O>(t: State<O>, depths: map<string, nat>): State<O>
  {
    State(map n | n in depths :: Chain(depths[n], 0, if n in t.blocks then t.blocks[n] else 0, map[]),
          map[], multiset{}, t.messages, t.finality, t.blocks, map[], TxScan("", 0, {}),
          History((set sl | sl in t.messages :: t.messages[sl].msg.Key()) +
                  (set sl | sl in t.finality :: t.finality[sl].key),
                  {}, {}, {}, 0, 0, t.h.lostBefore + t.h.writeFailures, {}))
  }

  ghost predicate BlocksInRange<O>(s: State<O>) { forall n :: n in s.blocks ==> s.blocks[n] < TWO64 }

  lemma {:induction false} RunBlocksInRange<O>(s: State<O>, steps: seq<Step<O>>)
    requires BlocksInRange(s) && ValidRun(s, steps)
    ensures BlocksInRange(Exec(s, steps))
    decreases |steps|
  {
    if steps != [] {
      if !steps[0].ProcessBlock? { StepHeights(s, steps[0]); }
      RunBlocksInRange(Apply(s, steps[0]), steps[1..]);
    }
  }

  /** Whatever happens in a session, also failed writes: the next session starts in a start state. */
  lemma NextSessionStarts<O>(s: State<O>, steps: seq<Step<O>>, depths: map<string, nat>)
    requires Init(s) && ValidRun(s, steps)
    ensures Init(Restarted(Exec(s, steps), depths))
  {
    InitWellFormed(s);
    RunWellFormed(s, steps);
    RunBlocksInRange(s, steps);
    StoresRestart(Exec(s, steps), depths);
  }

  lemma StoresRestart<O>(t: State<O>, depths: map<string, nat>)
    requires StoresOk(t) && BlocksInRange(t)
    ensures Init(Restarted(t, depths))
  {
  }
}
