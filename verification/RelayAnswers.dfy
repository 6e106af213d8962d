/** What the relayer takes from the answers of the chains and of the database: exactly which answers close a
    message, take it out of the cache, write or delete it in the store, and start or end an attempt. */
module RelayAnswers {
  import opened Types
  import opened RelaySpec
  import opened RelayFrames
  import opened RelayInvariants
  import opened RelayNoLoss
  import opened RelayRuns

  /** The three ways in which a message leaves the care of the relayer. */
  datatype Why = Received | NoDestination | NotRegenerated

  ghost function Label<O>(h: History<O>, why: Why): set<MessageKey>
  {
    match why
    case Received => h.confirmed
    case NoDestination => h.unknownDst
    case NotRegenerated => h.notRegenerated
  }

  /** The message that an iteration of processMessages looks at. */
  ghost function Looked<O>(s: State<O>, step: Step<O>): Entry
    requires Enabled(s, step) && step.Process?
  {
    s.heap[s.chains[step.nid].cache[step.k]].e
  }

  /** The destination is asked about the message, and answers. */
  ghost predicate Asked<O>(s: State<O>, step: Step<O>)
    requires Enabled(s, step) && step.Process?
  {
    Looked(s, step).msg.dst in s.chains && !Looked(s, step).isProcessing && step.willing && step.received.Reply?
  }

  /** The check has found the transaction deep enough, and its receipt. */
  ghost predicate Judged<O>(s: State<O>, step: Step<O>)
    requires Enabled(s, step) && step.CheckTx?
  {
    step.t.txHeight != 0 && (step.t.txHeight + s.chains[s.scan.nid].depth) % TWO64 <= s.scan.height &&
    step.receipt.Reply?
  }

  /** The destination has message `k`: it says so when asked about an idle message, by a success without
      finality depth, or by a good receipt. */
  ghost predicate SaysReceived<O>(s: State<O>, step: Step<O>, k: MessageKey)
    requires Enabled(s, step)
  {
    match step
    case Process(_, _, _, received, _, _) =>
      Looked(s, step).msg.Key() == k && Asked(s, step) && received == Reply(true)
    case CallbackSuccess(fid, _, _, _, _) => s.flights[fid].key == k && s.chains[s.flights[fid].dst].depth == 0
    case CheckTx(t, receipt, deleteOk, _, _) =>
      t.key == k && Judged(s, step) && receipt == Reply(true) && deleteOk
    case _ => false
  }

  /** The answers that close message `k`. */
  ghost predicate Closes<O>(s: State<O>, step: Step<O>, k: MessageKey, why: Why)
    requires Enabled(s, step)
  {
    match why
    case Received => SaysReceived(s, step, k)
    case NoDestination => step.Process? && Looked(s, step).msg.Key() == k && Looked(s, step).msg.dst !in s.chains
    case NotRegenerated =>
      step.CheckTx? && step.t.key == k && Judged(s, step) && step.receipt == Reply(false) && step.deleteOk &&
      k.src in s.chains && step.generated == None
  }

  lemma ProcessHistory<O>(s: State<O>, nid: string, k: MessageKey, willing: bool, received: Answer<bool>,
                          deleteOk: bool, fid: nat)
    requires Cached(s, nid, k) && s.chains[nid].cache[k] in s.heap
    ensures var e := s.heap[s.chains[nid].cache[k]].e; var key := {e.msg.Key()};
      var h := ApplyProcess(s, nid, k, willing, received, deleteOk, fid).h;
      && h.unknownDst == s.h.unknownDst + (if e.msg.dst !in s.chains then key else {})
      && h.confirmed == s.h.confirmed +
        (if e.msg.dst in s.chains && !e.isProcessing && willing && received == Reply(true) then key else {})
      && h.notRegenerated == s.h.notRegenerated
  {
    var key := s.heap[s.chains[nid].cache[k]].e.msg.Key();
    ClearFrame(s.(h := s.h.(unknownDst := s.h.unknownDst + {key})), nid, key, deleteOk);
    ClearFrame(s.(h := s.h.(confirmed := s.h.confirmed + {key})), nid, key, deleteOk);
  }

  lemma ProcessLabels<O>(s: State<O>, step: Step<O>, k: MessageKey, why: Why)
    requires Enabled(s, step) && step.Process?
    ensures k in Label(Apply(s, step).h, why) <==> k in Label(s.h, why) || Closes(s, step, k, why)
  {
    var Process(nid, k', willing, received, deleteOk, fid) := step;
    ProcessHistory(s, nid, k', willing, received, deleteOk, fid);
  }

  lemma SuccessHistory<O>(s: State<O>, fid: nat, txHash: string, txHeight: nat, writeOk: bool, deleteOk: bool)
    requires CanLand(s, fid)
    ensures var f := s.flights[fid]; var h := ApplySuccess(s, fid, txHash, txHeight, writeOk, deleteOk).h;
      && h.confirmed == s.h.confirmed + (if s.chains[f.dst].depth == 0 then {f.key} else {})
      && h.unknownDst == s.h.unknownDst && h.notRegenerated == s.h.notRegenerated
  {
    var f := s.flights[fid];
    var l := Landed(s, fid);
    ClearFrame(l.(h := l.h.(confirmed := l.h.confirmed + {f.key})), f.src, f.key, deleteOk);
    if f.key in s.chains[f.src].cache {
      var t := TxObject(f.key, s.heap[s.chains[f.src].cache[f.key]].e.msg.height, txHash, txHeight);
      ClearFrame(l.(finality := l.finality[DstSlot(t.key) := t]), f.src, t.key, deleteOk);
    }
  }

  lemma SuccessLabels<O>(s: State<O>, step: Step<O>, k: MessageKey, why: Why)
    requires Enabled(s, step) && step.CallbackSuccess?
    ensures k in Label(Apply(s, step).h, why) <==> k in Label(s.h, why) || Closes(s, step, k, why)
  {
    var CallbackSuccess(fid, txHash, txHeight, writeOk, deleteOk) := step;
    SuccessHistory(s, fid, txHash, txHeight, writeOk, deleteOk);
  }

  lemma CheckHistory<O>(s: State<O>, t: TxObject, receipt: Answer<bool>, deleteOk: bool, generated: Option<Message>,
                        o: O)
    requires s.scan.nid in s.chains
    ensures var h := ApplyCheck(s, t, receipt, deleteOk, generated, o).h;
      var final := t.txHeight != 0 && (t.txHeight + s.chains[s.scan.nid].depth) % TWO64 <= s.scan.height && deleteOk;
      && h.confirmed == s.h.confirmed + (if final && receipt == Reply(true) then {t.key} else {})
      && h.notRegenerated == s.h.notRegenerated +
        (if final && receipt == Reply(false) && t.key.src in s.chains && generated == None then {t.key} else {})
      && h.unknownDst == s.h.unknownDst
  {
    WithdrawFrame(s, t);
    if Deletes(s, t, receipt, deleteOk) && !receipt.value && generated.Some? {
      InsertFrame(Withdraw(Checked(s, t), t), t.key.src, Fresh(generated.value), o);
    }
  }

  lemma CheckLabels<O>(s: State<O>, step: Step<O>, k: MessageKey, why: Why)
    requires Enabled(s, step) && step.CheckTx?
    ensures k in Label(Apply(s, step).h, why) <==> k in Label(s.h, why) || Closes(s, step, k, why)
  {
    var CheckTx(t, receipt, deleteOk, generated, o) := step;
    CheckHistory(s, t, receipt, deleteOk, generated, o);
  }

  lemma FailLabels<O>(s: State<O>, o: O, src: string, storeOk: bool, why: Why)
    requires o in s.heap && src in s.chains
    ensures Label(Fail(s, o, src, storeOk).h, why) == Label(s.h, why)
  {
  }

  /** A message is closed by exactly these answers, and stays closed. */
  lemma StepCloses<O>(s: State<O>, step: Step<O>, k: MessageKey, why: Why)
    requires Enabled(s, step)
    ensures k in Label(Apply(s, step).h, why) <==> k in Label(s.h, why) || Closes(s, step, k, why)
  {
    match step
    case Process(_, _, _, _, _, _) => ProcessLabels(s, step, k, why);
    case CallbackSuccess(_, _, _, _, _) => SuccessLabels(s, step, k, why);
    case CheckTx(_, _, _, _, _) => CheckLabels(s, step, k, why);
    case Flush(nid, listing, os) => InsertAllFrame(s, nid, Active(Entries(s.messages, listing)), os);
    case RouteError(fid, storeOk) =>
      FailLabels(Landed(s, fid), s.flights[fid].obj, s.flights[fid].src, storeOk, why);
    case CallbackFailure(fid, storeOk) =>
      var f := s.flights[fid];
      if f.key in s.chains[f.src].cache {
        FailLabels(Landed(s, fid), s.chains[f.src].cache[f.key], f.src, storeOk, why);
      }
    case ProcessBlock(_, _, _, _) =>
    case Merge(_, _) =>
    case ScanTx(_) =>
  }

  /** Some step of the run got such an answer. */
  ghost predicate ClosedDuring<O>(s: State<O>, steps: seq<Step<O>>, k: MessageKey, why: Why)
    requires ValidRun(s, steps)
    decreases |steps|
  {
    steps != [] && (Closes(s, steps[0], k, why) || ClosedDuring(Apply(s, steps[0]), steps[1..], k, why))
  }

  /** Over every run: a message is closed if and only if an answer of the run closed it. */
  lemma {:induction false} RunCloses<O>(s: State<O>, steps: seq<Step<O>>, k: MessageKey, why: Why)
    requires ValidRun(s, steps)
    ensures k in Label(Exec(s, steps).h, why) <==> k in Label(s.h, why) || ClosedDuring(s, steps, k, why)
    decreases |steps|
  {
    if steps != [] {
      StepCloses(s, steps[0], k, why);
      RunCloses(Apply(s, steps[0]), steps[1..], k, why);
    }
  }

  /** The relayer has the message: it waits to be merged, or is cached, stored or watched. */
  ghost predicate InCare<O>(s: State<O>, k: MessageKey)
  {
    Awaiting(s, k) || Cached(s, k.src, k) || Stored(s, k) || Watched(s, k)
  }

  /** No silent loss in terms of answers, from the start of a relayer on: when sources number their messages
      and victims are held, each message that was ever delivered or stored is in its care at the end of the
      run, unless an answer of the run closed it. */
  lemma InCareUnlessClosed<O>(s: State<O>, steps: seq<Step<O>>, k: MessageKey)
    requires Init(s) && ValidRun(s, steps) && k in Exec(s, steps).h.known
    requires Numbered(Exec(s, steps).h.known) && VictimsHeld(s, steps)
    ensures InCare(Exec(s, steps), k) || exists why :: ClosedDuring(s, steps, k, why)
  {
    InitWellFormed(s);
    InitNoLoss(s);
    NothingLostIff(s, steps);
    AlwaysAtTheEnd(s, steps);
    var t := Exec(s, steps);
    assert Accounted(t, k);
    RunCloses(s, steps, k, Received);
    RunCloses(s, steps, k, NoDestination);
    RunCloses(s, steps, k, NotRegenerated);
  }

  /** An iteration of processMessages changes nothing at all if and only if the destination is configured, but
      an attempt is outstanding, the chain is not willing, or the query for the message fails. */
  lemma ProcessChangesNothing<O>(s: State<O>, step: Step<O>)
    requires CacheOk(s) && Enabled(s, step) && step.Process?
    ensures Apply(s, step) == s <==>
      (Looked(s, step).msg.dst in s.chains && (Looked(s, step).isProcessing || !step.willing || step.received == Error))
  {
    assert CachedOk(s, step.nid, step.k);
    if Apply(s, step) == s { assert step.k in Apply(s, step).chains[step.nid].cache; }
  }

  /** What the next session knows of a message: it is in its care exactly when it was stored or watched. What
      only waited to be merged, or was only cached, is gone. */
  lemma SurvivesRestart<O>(t: State<O>, depths: map<string, nat>, k: MessageKey)
    requires StoresOk(t)
    ensures var s := Restarted(t, depths);
      && (InCare(s, k) <==> Stored(t, k) || Watched(t, k)) && (InCare(s, k) ==> k in s.h.known)
      && s.blocks == t.blocks
  {
    var s := Restarted(t, depths);
    assert !Awaiting(s, k);
  }
}
