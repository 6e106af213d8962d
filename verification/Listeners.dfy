/** The two block listeners: which heights they hand to the relayer. */
module Listeners {
  import opened Types
  import opened Fetch

  const EVM_RETRIES := 3
  const ICON_RETRIES := 5          // maxRetires
  const ICON_CAPACITY := 100       // of the notification and response channels
  const MAX_CONCURRENCY := 10      // monitorBlockMaxConcurrency

  // ---------- EVM ----------

  function Max(a: int, b: int): int { if a < b then b else a }

  /** GetConcurrency computes in uint64 and returns an int. */
  method GetConcurrency(configured: nat, startHeight: nat, currentHeight: nat) returns (n: int)
    requires configured < TWO64 && startHeight < TWO64 && currentHeight < TWO64
    ensures var limit := if configured == 0 then 10 else configured;
      var gap := Sub64(currentHeight, startHeight);
      && (n >= 1 <==> (limit < TWO64 / 2 || gap < TWO64 / 2))
      && (n >= 1 ==> n <= limit && n <= Max(gap, 1) && (n == limit || n == Max(gap, 1)))
  {
    var concurrency := configured;
    if concurrency == 0 { concurrency := MAX_CONCURRENCY; }
    var heightToSync := Sub64(currentHeight, startHeight);
    if heightToSync < 1 {
      concurrency := 1;
    } else if heightToSync < concurrency {
      concurrency := heightToSync;
    }
    n := if concurrency < TWO64 / 2 then concurrency else concurrency - TWO64;
  }

  /** The events of the EVM listener: the two tickers, a notification that can be received, where `finds` says in
      which blocks FindMessages succeeds, and a batch with the answers of the chain. */
  datatype EvmEvent = Tick | Poll(height: nat) | Deliver(finds: int -> bool) | Sync(answers: (nat, nat) -> Ending)

  datatype EvmState = EvmState(next: nat, latest: nat, lbn: Option<int>, bnch: seq<int>, emitted: seq<int>,
                               stopped: bool)

  /** What one pass of the loop may do. */
  ghost predicate EvmStep(capacity: nat, e: EvmEvent, s: EvmState, t: EvmState)
  {
    if s.stopped then t == s
    else
      match e
      case Tick => t == s.(latest := (s.latest + 1) % TWO64)
      case Poll(height) => t == s.(latest := Max(s.latest, height))
      case Deliver(finds) => if s.bnch == [] then t == s else Delivered(finds, s, t)
      case Sync(answers) => if s.bnch != [] || s.next >= s.latest then t == s else Synced(capacity, answers, s, t)
  }

  ghost predicate AllFound(finds: int -> bool, from: int, to: int) { forall h :: from <= h < to ==> finds(h) }

  /** Everything that waits goes out but for the last notification, up to the first block in which
      FindMessages fails: there the listener stops. */
  ghost predicate Delivered(finds: int -> bool, s: EvmState, t: EvmState)
  {
    var waiting := (if s.lbn.Some? then [s.lbn.value] else []) + s.bnch;
    var sent := |t.emitted| - |s.emitted|;
    && 0 <= sent < |waiting| && t.emitted == s.emitted + waiting[..sent]
    && (forall i :: 0 <= i < sent ==> finds(waiting[i]))
    && (t.stopped <==> sent < |waiting| - 1)
    && (t.stopped ==> !finds(waiting[sent]))
    && (!t.stopped ==> t == s.(next := s.next + |s.bnch|, lbn := Some(waiting[sent]), bnch := [], emitted := t.emitted))
  }

  /** One batch of fetches, with three retries for each height. */
  ghost predicate Synced(capacity: nat, answers: (nat, nat) -> Ending, s: EvmState, t: EvmState)
    requires s.next < s.latest
  {
    var heights := Range(s.next, if s.latest - s.next < capacity then s.latest - s.next else capacity);
    var job := Job(heights, 3, true, answers);
    && t == s.(latest := t.latest, bnch := t.bnch) && BatchSent(job, s.next, t.bnch)
    && (t.latest == s.latest || Lowered(heights, t.latest)) && (InRange(heights) ==> TipAfter(job, s.latest, t.latest))
  }

  lemma FirstFetch(job: Job, q: nat)
    requires job.answers(q, 0) == Fetched
    ensures job.Gets(q) && !job.Passes(q)
  {
    assert !job.Again(q, 0);
  }

  /** When the first fetches of a batch succeed, all its heights are queued, and the tip stays. */
  lemma EvmAllFetched(capacity: nat, answers: (nat, nat) -> Ending, s: EvmState, t: EvmState)
    requires s.next < s.latest && Synced(capacity, answers, s, t) && forall q :: answers(q, 0) == Fetched
    ensures t.bnch == Range(s.next, if s.latest - s.next < capacity then s.latest - s.next else capacity)
    ensures 0 < s.next && s.latest <= TWO64 ==> t.latest == s.latest
  {
    var heights := Range(s.next, if s.latest - s.next < capacity then s.latest - s.next else capacity);
    var job := Job(heights, 3, true, answers);
    forall q: nat ensures job.Gets(q) && !job.Passes(q) { FirstFetch(job, q); }
    AllIsSent(job, s.next, t.bnch);
  }

  class EvmListener {
    const start: nat
    const capacity: nat       // of the notification channel
    var next: nat
    var latest: nat
    var lbn: Option<int>      // last notification, not yet handed on
    var bnch: seq<int>        // the notification channel
    var emitted: seq<int>     // what went to the relayer
    var stopped: bool         // Listener returned an error

    /** What went to the relayer is start, start + 1, ... without a gap and without a repetition. */
    ghost predicate InOrder()
      reads this
    {
      emitted == Range(start, |emitted|)
    }

    ghost predicate Valid()
      reads this
    {
      && 1 <= capacity && start <= next && InOrder()
      && |emitted| == (if next == start then 0 else next - 1 - start)
      && lbn == (if next == start then None else Some(next - 1))
      && bnch == Range(next, |bnch|) && |bnch| <= capacity
    }

    ghost function State(): EvmState
      reads this
    {
      EvmState(next, latest, lbn, bnch, emitted, stopped)
    }

    constructor (start: nat, latest: nat, capacity: nat)
      requires 1 <= capacity
      ensures Valid() && next == start && bnch == [] && !stopped && this.start == start && this.latest == latest
    {
      this.start, this.capacity, this.next, this.latest := start, capacity, start, latest;
      lbn, bnch, emitted, stopped := None, [], [], false;
    }

    /** The two tickers move the tip. */
    method HeightTick()
      requires Valid()
      modifies this`latest
      ensures Valid() && latest == (old(latest) + 1) % TWO64
    {
      latest := (latest + 1) % TWO64;
    }

    method HeightPoll(height: nat)
      requires Valid()
      modifies this`latest
      ensures Valid() && latest == if height > old(latest) then height else old(latest)
    {
      if height > latest { latest := height; }
    }

    static lemma RangeMore(from: int, s: seq<int>, v: int)
      requires s == Range(from, |s|) && v == from + |s|
      ensures s + [v] == Range(from, |s| + 1)
    {
    }

    static lemma RangeLess(from: int, s: seq<int>)
      requires s == Range(from, |s|) && s != []
      ensures s[0] == from && s[1..] == Range(from + 1, |s| - 1)
    {
    }

    /** In the loop: `bn` is the notification of `next`, and those up to `last` follow. */
    ghost predicate Between(bn: Option<int>, last: int)
      reads this
    {
      && start <= next && InOrder() && !stopped
      && |emitted| == (if next == start then 0 else next - 1 - start)
      && lbn == (if next == start then None else Some(next - 1))
      && (bn.Some? ==> bn.value == next && bnch == Range(next + 1, |bnch|) && last == next + 1 + |bnch|)
      && (bn.None? ==> bnch == [] && last == next)
    }

    /** One pass of the loop: the last notification goes out if FindMessages succeeds. */
    method HandOnOne(bn: int, finds: int -> bool, ghost last: int) returns (more: Option<int>)
      requires Between(Some(bn), last)
      modifies this`next, this`lbn, this`bnch, this`emitted, this`stopped
      ensures
        if stopped then start < next == old(next) && emitted == old(emitted) && !finds(start + |emitted|)
        else Between(more, last) && next == old(next) + 1
      ensures AllFound(finds, start + |old(emitted)|, start + |emitted|) && |old(emitted)| <= |emitted|
    {
      more := None;
      if lbn.Some? {
        if !finds(lbn.value) {
          stopped := true;
          return;
        }
        RangeMore(start, emitted, lbn.value);
        emitted := emitted + [lbn.value];
      }
      lbn := Some(bn);
      if bnch != [] {
        RangeLess(next + 1, bnch);
        more, bnch := Some(bnch[0]), bnch[1..];
      }
      next := next + 1;
    }

    /** The loop over the notifications that wait; it ends where FindMessages fails. */
    method HandOn(finds: int -> bool)
      requires Valid() && bnch != [] && !stopped
      modifies this`next, this`lbn, this`bnch, this`emitted, this`stopped
      ensures InOrder() && old(next) <= next && |emitted| == if next == start then 0 else next - 1 - start
      ensures
        if stopped then start < next < old(next) + |old(bnch)| && !finds(start + |emitted|)
        else Valid() && bnch == [] && next == old(next) + |old(bnch)|
      ensures AllFound(finds, start + |old(emitted)|, start + |emitted|)
    {
      ghost var last := next + |bnch|;
      var bn := Some(bnch[0]);
      bnch := bnch[1..];
      while bn.Some?
        invariant Between(bn, last) && old(next) <= next
        invariant AllFound(finds, start + |old(emitted)|, start + |emitted|)
        decreases last - next
      {
        bn := HandOnOne(bn.value, finds, last);
        if stopped { return; }
      }
      bnch := [];    // what is left is drained
    }

    /** All notifications that wait are handed on, but for the last one. */
    method Receive(finds: int -> bool)
      requires Valid() && bnch != [] && !stopped
      modifies this`next, this`lbn, this`bnch, this`emitted, this`stopped
      ensures InOrder() && Delivered(finds, old(State()), State()) && (!stopped ==> Valid())
    {
      ghost var s := State();
      HandOn(finds);
      Handed(start, finds, s, State());
    }

    /** The numbers behind Valid. */
    static ghost predicate At(start: nat, s: EvmState)
    {
      && start <= s.next && s.emitted == Range(start, |s.emitted|)
      && |s.emitted| == (if s.next == start then 0 else s.next - 1 - start)
    }

    static lemma Waiting(start: nat, s: EvmState) returns (waiting: seq<int>)
      requires At(start, s) && s.lbn == (if s.next == start then None else Some(s.next - 1))
      requires s.bnch == Range(s.next, |s.bnch|)
      ensures waiting == (if s.lbn.Some? then [s.lbn.value] else []) + s.bnch
      ensures waiting == Range(start + |s.emitted|, |waiting|)
      ensures |waiting| == |s.bnch| + if s.next == start then 0 else 1
    {
      waiting := (if s.lbn.Some? then [s.lbn.value] else []) + s.bnch;
    }

    static lemma Extends(start: nat, before: seq<int>, after: seq<int>, waiting: seq<int>, k: nat)
      requires before == Range(start, |before|) && after == Range(start, |after|) && |after| == |before| + k
      requires waiting == Range(start + |before|, |waiting|) && k <= |waiting|
      ensures after == before + waiting[..k]
    {
    }

    static lemma FoundAlong(finds: int -> bool, from: int, waiting: seq<int>, k: int)
      requires waiting == Range(from, |waiting|) && k <= |waiting| && AllFound(finds, from, from + k)
      ensures forall i :: 0 <= i < k ==> finds(waiting[i])
    {
    }

    /** How many notifications went out, by the numbers. */
    static lemma CountSent(start: nat, s: EvmState, t: EvmState, waiting: seq<int>)
      requires At(start, s) && At(start, t) && s.bnch != [] && waiting == Range(start + |s.emitted|, |waiting|)
      requires |waiting| == |s.bnch| + if s.next == start then 0 else 1
      requires if t.stopped then start < t.next && s.next <= t.next < s.next + |s.bnch|
        else t.next == s.next + |s.bnch|
      ensures var k := |t.emitted| - |s.emitted|;
        0 <= k < |waiting| && (t.stopped <==> k < |waiting| - 1) && waiting[k] == start + |t.emitted|
    {
    }

    static lemma Handed(start: nat, finds: int -> bool, s: EvmState, t: EvmState)
      requires At(start, s) && At(start, t) && s.bnch != []
      requires s.lbn == (if s.next == start then None else Some(s.next - 1)) && s.bnch == Range(s.next, |s.bnch|)
      requires AllFound(finds, start + |s.emitted|, start + |t.emitted|)
      requires !s.stopped && (t.stopped ==> !finds(start + |t.emitted|))
      requires if t.stopped then start < t.next && s.next <= t.next < s.next + |s.bnch|
        else t.next == s.next + |s.bnch| && t.latest == s.latest && t.lbn == Some(t.next - 1) && t.bnch == []
      ensures Delivered(finds, s, t)
    {
      var waiting := Waiting(start, s);
      CountSent(start, s, t, waiting);
      Sends(start, finds, s, t, waiting);
    }

    static lemma Sends(start: nat, finds: int -> bool, s: EvmState, t: EvmState, waiting: seq<int>)
      requires s.emitted == Range(start, |s.emitted|) && t.emitted == Range(start, |t.emitted|)
      requires waiting == Range(start + |s.emitted|, |waiting|)
      requires waiting == (if s.lbn.Some? then [s.lbn.value] else []) + s.bnch && !s.stopped
      requires 0 <= |t.emitted| - |s.emitted| < |waiting|
      requires AllFound(finds, start + |s.emitted|, start + |t.emitted|) && (t.stopped ==> !finds(start + |t.emitted|))
      requires t.stopped <==> |t.emitted| - |s.emitted| < |waiting| - 1
      requires !t.stopped ==> t.next == s.next + |s.bnch| && t.latest == s.latest
      requires !t.stopped ==> t.lbn == Some(start + |t.emitted|) && t.bnch == []
      ensures Delivered(finds, s, t)
    {
      var k := |t.emitted| - |s.emitted|;
      FoundAlong(finds, start + |s.emitted|, waiting, k);
      Extends(start, s.emitted, t.emitted, waiting, k);
      DeliveredIs(finds, s, t, waiting, k);
    }

    static lemma DeliveredIs(finds: int -> bool, s: EvmState, t: EvmState, waiting: seq<int>, sent: nat)
      requires waiting == (if s.lbn.Some? then [s.lbn.value] else []) + s.bnch && !s.stopped
      requires sent < |waiting| && t.emitted == s.emitted + waiting[..sent]
      requires (forall i :: 0 <= i < sent ==> finds(waiting[i])) && (t.stopped ==> !finds(waiting[sent]))
      requires t.stopped <==> sent < |waiting| - 1
      requires !t.stopped ==> t.next == s.next + |s.bnch| && t.latest == s.latest
      requires !t.stopped ==> t.lbn == Some(waiting[sent]) && t.bnch == []
      ensures Delivered(finds, s, t)
    {
    }

    /** The requests of a batch: from `next` up to the tip, as many as the channel takes. */
    method NextHeights() returns (heights: seq<int>)
      requires Valid() && next < latest
      ensures heights == Range(next, if latest - next < capacity then latest - next else capacity)
    {
      heights := [];
      var i := next;
      while i < latest && |heights| < capacity
        invariant heights == Range(next, i - next) && next <= i <= latest && |heights| <= capacity
      {
        heights := heights + [i];
        i := i + 1;
      }
    }

    /** The default case: one batch of fetches, and the notifications that continue `next`. */
    method SyncBatch(answers: (nat, nat) -> Ending)
      requires Valid() && bnch == [] && !stopped
      modifies this`latest, this`bnch
      ensures Valid() && EvmStep(capacity, Sync(answers), old(State()), State())
      ensures bnch != [] ==> next + |bnch| <= old(latest)
    {
      if next >= latest { return; }
      var heights := NextHeights();
      var job := Job(heights, EVM_RETRIES, true, answers);
      bnch, latest := FetchRun(job, capacity, latest, next);
    }

    method Pass(e: EvmEvent)
      requires InOrder() && (!stopped ==> Valid())
      modifies this
      ensures InOrder() && (!stopped ==> Valid()) && EvmStep(capacity, e, old(State()), State())
    {
      if stopped { return; }
      match e {
        case Tick => HeightTick();
        case Poll(height) => HeightPoll(height);
        case Deliver(finds) => if bnch != [] { Receive(finds); }
        case Sync(answers) => if bnch == [] { SyncBatch(answers); }
      }
    }

    /** The loop of Listener, for every schedule of its events: a prefix of it, as it never ends by
        itself. The default case is taken only when no notification waits. `trace` are the states it
        goes through. */
    method Listen(events: seq<EvmEvent>) returns (ghost trace: seq<EvmState>)
      requires Valid() && !stopped && next == start
      modifies this
      ensures emitted == Range(start, |emitted|)
      ensures !stopped ==> Valid() && |emitted| == (if next == start then 0 else next - 1 - start)
      ensures |trace| == |events| + 1 && trace[0] == old(State()) && trace[|events|] == State()
      ensures forall i :: 0 <= i < |events| ==> EvmStep(capacity, events[i], trace[i], trace[i + 1])
    {
      trace := [State()];
      for i := 0 to |events|
        invariant InOrder() && (!stopped ==> Valid())
        invariant |trace| == i + 1 && trace[0] == old(State()) && trace[i] == State()
        invariant forall j :: 0 <= j < i ==> EvmStep(capacity, events[j], trace[j], trace[j + 1])
      {
        Pass(events[i]);
        trace := trace + [State()];
      }
    }
  }

  // ---------- ICON ----------

  /** What happens around the ICON listener: the monitor delivers a notification (its height, or one
      that does not parse), a monitor ends and reconnects, and the three cases of its loop, the last one
      with the answers of the chain. */
  datatype IconEvent =
    | Notify(height: Option<int>) | MonitorEnds | Restart | Respond | Request(answers: (nat, nat) -> Ending)

  datatype IconState = IconState(processed: int, notifications: seq<Option<int>>, responses: seq<int>,
                                 emitted: seq<int>, reconnecting: bool, stopped: bool)

  /** The number of waiting notifications up to the first that is not the next height. */
  function Expecting(notifications: seq<Option<int>>, processed: int): (n: nat)
    ensures n <= |notifications| && (forall i :: 0 <= i < n ==> notifications[i] == Some(processed + i))
    ensures n < |notifications| ==> notifications[n] != Some(processed + n)
  {
    if notifications == [] || notifications[0] != Some(processed) then 0
    else
      var n := Expecting(notifications[1..], processed + 1);
      assert forall i :: 0 <= i < n ==> notifications[i + 1] == notifications[1..][i];
      n + 1
  }

  /** What one event may do. */
  ghost predicate IconStep(e: IconEvent, s: IconState, t: IconState)
  {
    if s.stopped then t == s
    else
      match e
      case Notify(height) =>
        t == if |s.notifications| < 100 then s.(notifications := s.notifications + [height]) else s
      case MonitorEnds => t == Reconnected(s)
      case Restart => t == s.(reconnecting := false)
      case Respond => t == s.(processed := s.processed + |s.responses|, responses := [],
                              emitted := s.emitted +
                                         seq(|s.responses|, i requires 0 <= i < |s.responses| => s.responses[i] - 1))
      case Request(answers) =>
        if s.responses != [] || s.reconnecting || s.notifications == [] then t == s else Requested(answers, s, t)
  }

  function Reconnected(s: IconState): IconState { s.(reconnecting := true, notifications := [], responses := []) }

  /** All waiting notifications are the next heights, and are fetched with five retries each; or the first that is not
      stops the listener when it does not parse, and makes it reconnect otherwise. */
  ghost predicate Requested(answers: (nat, nat) -> Ending, s: IconState, t: IconState)
  {
    var n := Expecting(s.notifications, s.processed);
    if n == |s.notifications| then
      t == s.(notifications := [], responses := t.responses) &&
      BatchSent(Job(Range(s.processed, n), 5, false, answers), s.processed, t.responses)
    else if s.notifications[n].None? then t == s.(notifications := s.notifications[n + 1..], stopped := true)
    else t == Reconnected(s)
  }

  /** When the first fetches of a batch succeed, all notified heights are queued. */
  lemma IconAllFetched(answers: (nat, nat) -> Ending, s: IconState, t: IconState)
    requires Requested(answers, s, t) && forall q :: answers(q, 0) == Fetched
    requires forall i :: 0 <= i < |s.notifications| ==> s.notifications[i] == Some(s.processed + i)
    ensures t.responses == Range(s.processed, |s.notifications|) && t.notifications == []
  {
    var n := Expecting(s.notifications, s.processed);
    assert n == |s.notifications|;
    var job := Job(Range(s.processed, n), 5, false, answers);
    forall q: nat ensures job.Gets(q) { FirstFetch(job, q); }
    AllIsSent(job, s.processed, t.responses);
  }

  class IconListener {
    const start: int
    var processed: int               // processedheight
    var notifications: seq<Option<int>>
    var responses: seq<int>
    var emitted: seq<int>
    var reconnecting: bool           // the token in reconnectCh
    var stopped: bool

    /** Blocks are handed on with their height less one. */
    ghost predicate Valid()
      reads this
    {
      && start <= processed && emitted == Range(start - 1, processed - start)
      && responses == Range(processed, |responses|) && |responses| <= ICON_CAPACITY
      && |notifications| <= ICON_CAPACITY
    }

    ghost function State(): IconState
      reads this
    {
      IconState(processed, notifications, responses, emitted, reconnecting, stopped)
    }

    constructor (start: int)
      ensures Valid() && processed == start && !stopped && this.start == start
    {
      this.start, processed, notifications, responses := start, start, [], [];
      emitted, reconnecting, stopped := [], true, false;
    }

    /** The callback of MonitorBlock waits while the channel is full. */
    method OnNotification(height: Option<int>)
      requires Valid()
      modifies this`notifications
      ensures Valid()
      ensures notifications ==
        if |old(notifications)| < ICON_CAPACITY then old(notifications) + [height] else old(notifications)
    {
      if |notifications| < ICON_CAPACITY { notifications := notifications + [height]; }
    }

    /** The token is set, and both channels are drained, in one step. */
    method Reconnect()
      requires Valid()
      modifies this`reconnecting, this`notifications, this`responses
      ensures Valid() && reconnecting && notifications == [] && responses == []
    {
      reconnecting := true;
      while responses != [] || notifications != []
        invariant Range(processed + |old(responses)| - |responses|, |responses|) == responses
        invariant |responses| <= |old(responses)|
        invariant |notifications| <= |old(notifications)|
        modifies this`responses, this`notifications
        decreases |responses| + |notifications|
      {
        var first: bool := *;
        if responses != [] && (first || notifications == []) {
          assert responses[1..] == Range(processed + |old(responses)| - |responses[1..]|, |responses[1..]|);
          responses := responses[1..];
        } else {
          notifications := notifications[1..];
        }
      }
    }

    method TakeToken()
      requires Valid()
      modifies this`reconnecting
      ensures Valid() && !reconnecting
    {
      reconnecting := false;
    }

    /** All responses that wait are handed on. */
    method HandOn()
      requires Valid() && responses != []
      modifies this`processed, this`responses, this`emitted
      ensures Valid() && responses == [] && processed == old(processed) + |old(responses)| && old(emitted) <= emitted
    {
      ghost var last := processed + |responses|;
      var br := Some(responses[0]);
      responses := responses[1..];
      while br.Some?
        invariant start <= processed && emitted == Range(start - 1, processed - start) && old(emitted) <= emitted
        invariant br.Some? ==> br.value == processed && last == processed + 1 + |responses|
        invariant br.Some? ==> responses == Range(processed + 1, |responses|)
        invariant br.None? ==> responses == [] && last == processed
        decreases last - processed
      {
        emitted := emitted + [br.value - 1];
        br := None;
        if responses != [] { br, responses := Some(responses[0]), responses[1..]; }
        processed := processed + 1;
      }
    }

    /** All notifications that wait become requests. One that is not the expected one makes the
        listener reconnect, and one that does not parse stops it. */
    method TakeNotifications() returns (heights: seq<int>, ok: bool)
      requires Valid() && notifications != [] && responses == [] && !stopped
      modifies this`notifications, this`responses, this`reconnecting, this`stopped
      ensures Valid() && responses == [] && heights == Range(processed, |heights|)
      ensures |heights| == Expecting(old(notifications), processed) && (ok <==> |heights| == |old(notifications)|)
      ensures if ok then State() == old(State()).(notifications := [])
        else if old(notifications)[|heights|].None? then
          State() == old(State()).(notifications := old(notifications)[|heights| + 1..], stopped := true)
        else State() == Reconnected(old(State()))
    {
      heights, ok := [], true;
      ghost var was := notifications;
      var bn := Some(notifications[0]);
      notifications := notifications[1..];
      while bn.Some?
        invariant heights == Range(processed, |heights|) && |heights| <= |was| && ok
        invariant forall i :: 0 <= i < |heights| ==> was[i] == Some(processed + i)
        invariant bn.Some? ==> |heights| < |was| && bn.value == was[|heights|]
        invariant bn.Some? ==> notifications == was[|heights| + 1..]
        invariant bn.None? ==> |heights| == |was| && notifications == []
        invariant responses == [] && !stopped && reconnecting == old(reconnecting)
        decreases |notifications| + (if bn.Some? then 1 else 0)
      {
        var height := bn.value;
        if height.None? {
          ExpectingIs(was, processed, |heights|);
          stopped, ok := true, false;
          return;
        }
        if height.value != processed + |heights| {
          ExpectingIs(was, processed, |heights|);
          Reconnect();
          ok := false;
          return;
        }
        heights := heights + [height.value];
        bn := None;
        if notifications != [] && |heights| < ICON_CAPACITY {
          bn, notifications := Some(notifications[0]), notifications[1..];
        }
      }
      ExpectingIs(was, processed, |heights|);
    }

    static lemma ExpectingIs(notifications: seq<Option<int>>, processed: int, n: nat)
      requires n <= |notifications| && forall i :: 0 <= i < n ==> notifications[i] == Some(processed + i)
      requires n < |notifications| ==> notifications[n] != Some(processed + n)
      ensures Expecting(notifications, processed) == n
    {
    }

    /** The default case: one batch of fetches, and the responses that continue `processed`. */
    method RequestBatch(answers: (nat, nat) -> Ending)
      requires Valid() && responses == [] && notifications != [] && !stopped
      modifies this`notifications, this`responses, this`reconnecting, this`stopped
      ensures Valid() && Requested(answers, old(State()), State())
    {
      var heights, ok := TakeNotifications();
      if !ok { return; }
      var job := Job(heights, ICON_RETRIES, false, answers);
      var tip;
      responses, tip := FetchRun(job, ICON_CAPACITY, 0, processed);
    }

    method Pass(e: IconEvent)
      requires Valid()
      modifies this
      ensures Valid() && IconStep(e, old(State()), State())
    {
      if stopped { return; }
      match e {
        case Notify(height) => OnNotification(height);
        case MonitorEnds => Reconnect();
        case Restart => if reconnecting { TakeToken(); }
        case Respond => if responses != [] { HandOn(); }
        case Request(answers) =>
          if responses == [] && !reconnecting && notifications != [] { RequestBatch(answers); }
      }
    }

    /** The loop of Listener together with the monitors around it, for every schedule of events
        and every sequence of notifications. `trace` are the states it goes through. */
    method Listen(events: seq<IconEvent>) returns (ghost trace: seq<IconState>)
      requires Valid() && !stopped && processed == start
      modifies this
      ensures Valid() && emitted == Range(start - 1, processed - start) && responses == Range(processed, |responses|)
      ensures |trace| == |events| + 1 && trace[0] == old(State()) && trace[|events|] == State()
      ensures forall i :: 0 <= i < |events| ==> IconStep(events[i], trace[i], trace[i + 1])
    {
      trace := [State()];
      for i := 0 to |events|
        invariant Valid()
        invariant |trace| == i + 1 && trace[0] == old(State()) && trace[i] == State()
        invariant forall j :: 0 <= j < i ==> IconStep(events[j], trace[j], trace[j + 1])
      {
        Pass(events[i]);
        trace := trace + [State()];
      }
    }
  }

  // ---------- a drain that is not one step ----------

  /** HandOn on values: it never looks at the height of a response. */
  function HandedOn(emitted: seq<int>, responses: seq<int>): seq<int>
    decreases |responses|
  {
    if responses == [] then emitted else HandedOn(emitted + [responses[0] - 1], responses[1..])
  }

  /** When a reconnect has drained the first `d` responses, and the loop then hands on the rest, the
      stream has no gap if and only if the drain was empty or complete. */
  lemma {:induction false} DrainMustBeOneStep(start: int, processed: int, n: nat, d: nat)
    requires start <= processed && d <= n
    ensures var e := HandedOn(Range(start - 1, processed - start), Range(processed, n)[d..]);
      e == Range(start - 1, |e|) <==> d == 0 || d == n
  {
    var e0 := Range(start - 1, processed - start);
    var rest := Range(processed, n)[d..];
    HandedOnAppends(e0, rest);
    var e := HandedOn(e0, rest);
    if d < n { assert e[|e0|] == processed + d - 1; }
  }

  lemma {:induction false} HandedOnAppends(emitted: seq<int>, responses: seq<int>)
    ensures HandedOn(emitted, responses) ==
      emitted + seq(|responses|, i requires 0 <= i < |responses| => responses[i] - 1)
    decreases |responses|
  {
    if responses != [] { HandedOnAppends(emitted + [responses[0] - 1], responses[1..]); }
  }
}
