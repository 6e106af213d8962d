/** What the two block listeners share: the bounded queue of fetch requests with its workers, and
    the forwarding of the fetched blocks (relayer/chains/evm/listener.go:120-197,
    relayer/chains/icon/listener.go:133-205). A block is its height. */
module Fetch {
  import opened Types

  /** The heights from, from + 1, ..., n of them. */
  function Range(from: int, n: nat): (r: seq<int>)
    ensures |r| == n && forall i :: 0 <= i < n ==> r[i] == from + i
  {
    seq(n, i requires 0 <= i < n => from + i)
  }

  // ---------- the worker queue ----------

  /** A request in the queue: not fetched yet, fetched, or failed; `beyondTip` is the answer that
      the block number is greater than the current one. */
  datatype Status = Fresh | Fetched | Failed(beyondTip: bool)

  /** What a fetch may end with. */
  type Ending = a: Status | a != Fresh witness Fetched

  /** A batch to fetch: `answers(q, i)` is how fetch i of request q ends, counted from 0. With `honourTip` a
      height beyond the tip is not tried again. */
  datatype Job = Job(heights: seq<int>, retries: nat, honourTip: bool, answers: (nat, nat) -> Ending) {
    predicate Again(q: nat, i: nat) { answers(q, i).Failed? && !(honourTip && answers(q, i).beyondTip) }

    /** Fetch i is the last one of the request. */
    ghost predicate Settles(q: nat, i: nat)
    {
      i <= retries && (forall j :: 0 <= j < i ==> Again(q, j)) && (i == retries || !Again(q, i))
    }

    /** One of the fetches succeeds, and the request is tried again until then. */
    ghost predicate Gets(q: nat)
    {
      exists i :: 0 <= i <= retries && answers(q, i) == Fetched && forall j :: 0 <= j < i ==> Again(q, j)
    }

    /** A height beyond the tip is found, while there are retries left. */
    ghost predicate Passes(q: nat)
    {
      honourTip &&
      exists i :: 0 <= i < retries && answers(q, i) == Failed(true) && forall j :: 0 <= j < i ==> Again(q, j)
    }
  }

  lemma Settled(job: Job, q: nat, i: nat)
    requires job.Settles(q, i)
    ensures job.Gets(q) <==> job.answers(q, i) == Fetched
    ensures job.Passes(q) <==> job.honourTip && i < job.retries && job.answers(q, i) == Failed(true)
  {
    if job.Gets(q) {
      var k :| 0 <= k <= job.retries && job.answers(q, k) == Fetched && forall j :: 0 <= j < k ==> job.Again(q, j);
      assert !job.Again(q, k) && k == i;
    }
    if job.Passes(q) {
      var k :| 0 <= k < job.retries && job.answers(q, k) == Failed(true) && forall j :: 0 <= j < k ==> job.Again(q, j);
      assert !job.Again(q, k) && k == i;
    }
  }

  datatype Request = Request(height: int, status: Status, retry: nat)

  datatype Stage = Queued | Working | Done

  /** An upper bound of the number of moves that a request still makes. */
  function Moves(r: Request, stage: Stage): nat
  {
    match stage
    case Done => 0
    case Working => 4 * r.retry + 2
    case Queued => 4 * r.retry + if r.status.Fresh? then 3 else 1
  }

  function TotalMoves(rs: seq<Request>, stages: seq<Stage>): nat
    requires |rs| == |stages|
  {
    if rs == [] then 0 else Moves(rs[0], stages[0]) + TotalMoves(rs[1..], stages[1..])
  }

  lemma {:induction false} TotalMovesChange(rs: seq<Request>, stages: seq<Stage>, q: nat, r: Request, stage: Stage)
    requires |rs| == |stages| && q < |rs|
    ensures TotalMoves(rs[q := r], stages[q := stage]) ==
      TotalMoves(rs, stages) - Moves(rs[q], stages[q]) + Moves(r, stage)
  {
    if q > 0 {
      TotalMovesChange(rs[1..], stages[1..], q - 1, r, stage);
      assert rs[q := r][1..] == rs[1..][q - 1 := r] && stages[q := stage][1..] == stages[1..][q - 1 := stage];
    } else {
      assert rs[q := r][1..] == rs[1..] && stages[q := stage][1..] == stages[1..];
    }
  }

  /** Fetches made so far: one for each retry used up, and one more once a worker took the last try. */
  predicate FetchesMatch(fetches: nat, r: Request, stage: Stage, retries: nat)
  {
    r.retry <= retries && fetches == retries - r.retry + if stage == Queued && r.status.Fresh? then 0 else 1
  }

  function Ids(n: nat): seq<nat> { seq(n, i requires 0 <= i < n => i) }

  lemma {:induction false} IdsOnce(n: nat, q: nat)
    ensures multiset(Ids(n))[q] == if q < n then 1 else 0
  {
    if n > 0 {
      IdsOnce(n - 1, q);
      assert Ids(n) == Ids(n - 1) + [n - 1];
    }
  }

  /** The loop over the request channel: the channel, the workers that are out, and the results.
      `stages`, `answered` and `fetches` are history: where each request is, which request each
      result is for, and how often each request was fetched. */
  datatype Batch = Batch(requests: seq<Request>, queue: seq<nat>, workers: set<nat>, results: seq<Option<int>>,
                         latest: int,
                         stages: seq<Stage>, answered: seq<nat>, fetches: seq<nat>)

  ghost predicate Placed(b: Batch)
  {
    && multiset(b.queue) + multiset(b.workers) + multiset(b.answered) == multiset(Ids(|b.stages|))
    && (forall q :: q in b.queue ==> q < |b.stages| && b.stages[q] == Queued)
    && (forall q :: q in b.workers ==> q < |b.stages| && b.stages[q] == Working)
    && (forall q :: q in b.answered ==> q < |b.stages| && b.stages[q] == Done)
  }

  ghost predicate Consistent(b: Batch, heights: seq<int>, retries: nat)
  {
    && Placed(b)
    && |b.requests| == |b.stages| == |b.fetches| == |heights| && |b.results| == |b.answered|
    && (forall i :: 0 <= i < |heights| ==>
      b.requests[i].height == heights[i] && FetchesMatch(b.fetches[i], b.requests[i], b.stages[i], retries))
    && (forall q :: q in b.workers ==> b.requests[q].status == Fresh)
    && (forall j :: 0 <= j < |b.results| ==>
      b.answered[j] < |heights| && (b.results[j] == None || b.results[j] == Some(heights[b.answered[j]])))
  }

  function Start(heights: seq<int>, retries: nat, tip: int): Batch
  {
    var n := |heights|;
    Batch(seq(n, i requires 0 <= i < n => Request(heights[i], Fresh, retries)), Ids(n), {}, [], tip,
          seq(n, _ => Queued), [], seq(n, _ => 0))
  }

  /** A worker ends, and puts its request back into the channel. */
  function WorkerEnds(b: Batch, q: nat, status: Status): Batch
    requires q < |b.requests| == |b.stages|
  {
    b.(requests := b.requests[q := b.requests[q].(status := status)], stages := b.stages[q := Queued],
       queue := b.queue + [q], workers := b.workers - {q})
  }

  /** The request gets its result, and is not put back. */
  function Answer(b: Batch, v: Option<int>, latest: int): Batch
    requires b.queue != [] && b.queue[0] < |b.stages|
  {
    b.(queue := b.queue[1..], results := b.results + [v], answered := b.answered + [b.queue[0]],
       stages := b.stages[b.queue[0] := Done], latest := latest)
  }

  /** The request is put back for one more try. */
  function Requeue(b: Batch): Batch
    requires b.queue != [] && b.queue[0] < |b.requests| && b.requests[b.queue[0]].retry > 0
  {
    var r := b.requests[b.queue[0]];
    b.(queue := b.queue[1..] + [b.queue[0]],
      requests := b.requests[b.queue[0] := Request(r.height, Fresh, r.retry - 1)])
  }

  /** A worker is started for the request. */
  function Launch(b: Batch): Batch
    requires b.queue != [] && b.queue[0] < |b.stages| == |b.fetches|
  {
    var q := b.queue[0];
    b.(queue := b.queue[1..], workers := b.workers + {q}, stages := b.stages[q := Working],
      fetches := b.fetches[q := b.fetches[q] + 1])
  }

  /** The loop receives the request at the head of the channel. */
  function Receive(b: Batch, honourTip: bool): Batch
    requires b.queue != [] && b.queue[0] < |b.requests| == |b.stages| == |b.fetches|
  {
    var r := b.requests[b.queue[0]];
    match r.status
    case Failed(beyond) =>
      if r.retry == 0 then Answer(b, None, b.latest)
      else if honourTip && beyond then
        Answer(b, None, if b.latest >= r.height then (r.height - 1) % TWO64 else b.latest)
      else Requeue(b)
    case Fetched => Answer(b, Some(r.height), b.latest)
    case Fresh => Launch(b)
  }

  lemma PlacedCount(b: Batch)
    requires Placed(b)
    ensures |b.queue| + |b.workers| + |b.answered| == |b.stages|
  {
    assert |multiset(b.queue) + multiset(b.workers) + multiset(b.answered)| == |multiset(Ids(|b.stages|))|;
  }

  /** The head of the queue is nowhere else. */
  lemma HeadOnce(b: Batch)
    requires Placed(b) && b.queue != []
    ensures var q := b.queue[0];
      q < |b.stages| && q !in b.queue[1..] && q !in b.workers && q !in b.answered &&
      multiset(b.queue) == multiset{q} + multiset(b.queue[1..])
  {
    var q := b.queue[0];
    assert q in b.queue;
    assert b.queue == [q] + b.queue[1..];
    IdsOnce(|b.stages|, q);
    assert multiset(b.queue)[q] + multiset(b.workers)[q] + multiset(b.answered)[q] == 1;
    assert q !in multiset(b.queue[1..]) && q !in multiset(b.answered);
  }

  lemma AnswerPlaced(b: Batch, v: Option<int>, latest: int)
    requires Placed(b) && b.queue != [] && b.queue[0] < |b.stages|
    ensures Placed(Answer(b, v, latest))
  {
    HeadOnce(b);
    assert forall p :: p in b.queue[1..] ==> p in b.queue;
  }

  lemma LaunchPlaced(b: Batch)
    requires Placed(b) && b.queue != [] && b.queue[0] < |b.stages| == |b.fetches|
    ensures Placed(Launch(b))
  {
    HeadOnce(b);
    assert multiset(b.workers + {b.queue[0]}) == multiset(b.workers) + multiset{b.queue[0]};
    assert forall p :: p in b.queue[1..] ==> p in b.queue;
  }

  lemma RequeuePlaced(b: Batch)
    requires Placed(b) && b.queue != [] && b.queue[0] < |b.requests| && b.requests[b.queue[0]].retry > 0
    ensures Placed(Requeue(b))
  {
    HeadOnce(b);
    assert forall p :: p in b.queue[1..] + [b.queue[0]] ==> p in b.queue;
  }

  lemma AnswerConsistent(b: Batch, heights: seq<int>, retries: nat, v: Option<int>, latest: int)
    requires Consistent(b, heights, retries) && b.queue != [] && b.queue[0] < |b.requests|
    requires b.requests[b.queue[0]].status != Fresh
    requires v == None || v == Some(b.requests[b.queue[0]].height)
    ensures Consistent(Answer(b, v, latest), heights, retries)
  {
    AnswerPlaced(b, v, latest);
    HeadOnce(b);
    assert b.queue[0] in b.queue;
    assert FetchesMatch(b.fetches[b.queue[0]], b.requests[b.queue[0]], Queued, retries);
  }

  lemma LaunchConsistent(b: Batch, heights: seq<int>, retries: nat)
    requires Consistent(b, heights, retries) && b.queue != [] && b.queue[0] < |b.requests|
    requires b.requests[b.queue[0]].status == Fresh
    ensures Consistent(Launch(b), heights, retries)
  {
    assert b.queue[0] in b.queue;
    assert FetchesMatch(b.fetches[b.queue[0]], b.requests[b.queue[0]], Queued, retries);
    LaunchPlaced(b);
    HeadOnce(b);
  }

  lemma RequeueConsistent(b: Batch, heights: seq<int>, retries: nat)
    requires Consistent(b, heights, retries) && b.queue != [] && b.queue[0] < |b.requests|
    requires b.requests[b.queue[0]].status != Fresh && b.requests[b.queue[0]].retry > 0
    ensures Consistent(Requeue(b), heights, retries)
  {
    assert b.queue[0] in b.queue;
    assert FetchesMatch(b.fetches[b.queue[0]], b.requests[b.queue[0]], Queued, retries);
    RequeuePlaced(b);
    HeadOnce(b);
  }

  lemma ReceiveConsistent(b: Batch, heights: seq<int>, retries: nat, honourTip: bool)
    requires Consistent(b, heights, retries) && b.queue != [] && b.queue[0] < |b.requests|
    ensures Consistent(Receive(b, honourTip), heights, retries)
  {
    var r := b.requests[b.queue[0]];
    match r.status
    case Fresh => LaunchConsistent(b, heights, retries);
    case Fetched => AnswerConsistent(b, heights, retries, Some(r.height), b.latest);
    case Failed(beyond) =>
      if r.retry > 0 && !(honourTip && beyond) {
        RequeueConsistent(b, heights, retries);
      } else {
        AnswerConsistent(b, heights, retries, None, Receive(b, honourTip).latest);
      }
  }

  /** Receiving changes the request at the head only, and brings the batch closer to its end. */
  lemma ReceiveMoves(b: Batch, honourTip: bool)
    requires b.queue != [] && b.queue[0] < |b.requests| == |b.stages| == |b.fetches| && b.stages[b.queue[0]] == Queued
    ensures TotalMoves(Receive(b, honourTip).requests, Receive(b, honourTip).stages) < TotalMoves(b.requests, b.stages)
    ensures !honourTip ==> Receive(b, honourTip).latest == b.latest
  {
    var q := b.queue[0];
    var t := Receive(b, honourTip);
    assert t.requests == b.requests[q := t.requests[q]] && t.stages == b.stages[q := t.stages[q]];
    TotalMovesChange(b.requests, b.stages, q, t.requests[q], t.stages[q]);
  }

  /** A request was answered with a number beyond the tip, and the tip is now below it, in uint64. */
  ghost predicate Lowered(heights: seq<int>, latest: int)
  {
    exists i :: 0 <= i < |heights| && latest == (heights[i] - 1) % TWO64
  }

  lemma ReceiveLowers(b: Batch, heights: seq<int>, retries: nat, honourTip: bool, tip: int)
    requires Consistent(b, heights, retries) && b.queue != [] && b.queue[0] < |b.requests|
    requires b.latest == tip || Lowered(heights, b.latest)
    ensures Receive(b, honourTip).latest == tip || Lowered(heights, Receive(b, honourTip).latest)
  {
    var q := b.queue[0];
    assert b.requests[q].height == heights[q];
  }

  /** What is known of a request agrees with what the chain answered. */
  ghost predicate HeardOf(r: Request, stage: Stage, job: Job, q: nat)
  {
    r.retry <= job.retries &&
    var i := job.retries - r.retry;
    && (forall j :: 0 <= j < i ==> job.Again(q, j))
    && (stage == Queued && r.status != Fresh ==> r.status == job.answers(q, i))
    && (stage == Done ==> r.status == job.answers(q, i) && job.Settles(q, i))
  }

  ghost predicate Heard(b: Batch, job: Job)
  {
    && |b.requests| == |b.stages| == |job.heights| && |b.results| == |b.answered|
    && (forall q :: 0 <= q < |b.requests| ==> HeardOf(b.requests[q], b.stages[q], job, q))
    && (forall j :: 0 <= j < |b.results| ==>
      b.answered[j] < |b.requests| && b.stages[b.answered[j]] == Done &&
      b.results[j] == ResultOf(b.requests[b.answered[j]], job, b.answered[j]))
  }

  function ResultOf(r: Request, job: Job, q: nat): Option<int>
    requires q < |job.heights|
  {
    if r.status == Fetched then Some(job.heights[q]) else None
  }

  lemma ReceiveHeard(b: Batch, job: Job)
    requires Heard(b, job) && Consistent(b, job.heights, job.retries) && b.queue != [] && b.queue[0] < |b.requests|
    ensures Heard(Receive(b, job.honourTip), job)
  {
    var q := b.queue[0];
    assert q in b.queue && b.stages[q] == Queued && b.requests[q].height == job.heights[q];
    assert HeardOf(b.requests[q], Queued, job, q);
    var c := Receive(b, job.honourTip);
    assert HeardOf(c.requests[q], c.stages[q], job, q);
    assert forall p :: 0 <= p < |b.requests| && p != q ==> c.requests[p] == b.requests[p] && c.stages[p] == b.stages[p];
  }

  lemma WorkerEndsHeard(b: Batch, job: Job, q: nat)
    requires Heard(b, job) && q < |b.requests| && b.stages[q] == Working
    ensures Heard(WorkerEnds(b, q, job.answers(q, job.retries - b.requests[q].retry)), job)
  {
    assert HeardOf(b.requests[q], Working, job, q);
  }

  /** All heights can be tips of the chain. */
  predicate InRange(heights: seq<int>) { forall q :: 0 <= q < |heights| ==> 0 < heights[q] <= TWO64 }

  /** The tip is the lowest one that the requests answered so far have shown. */
  ghost predicate TipSoFar(b: Batch, job: Job, tip: int)
  {
    && b.latest <= tip && |b.stages| == |job.heights|
    && (forall q :: 0 <= q < |b.stages| && b.stages[q] == Done && job.Passes(q) ==> b.latest < job.heights[q])
    && (b.latest == tip || exists q :: 0 <= q < |b.stages| && job.Passes(q) && b.latest == job.heights[q] - 1)
  }

  lemma ReceiveTip(b: Batch, job: Job, tip: int)
    requires Heard(b, job) && Consistent(b, job.heights, job.retries) && b.queue != [] && b.queue[0] < |b.requests|
    requires TipSoFar(b, job, tip) && InRange(job.heights)
    ensures TipSoFar(Receive(b, job.honourTip), job, tip)
  {
    var q := b.queue[0];
    var c := Receive(b, job.honourTip);
    assert q in b.queue && b.stages[q] == Queued && b.requests[q].height == job.heights[q];
    ReceiveHeard(b, job);
    assert HeardOf(c.requests[q], c.stages[q], job, q);
    var i := job.retries - c.requests[q].retry;
    if c.stages[q] == Done {
      Settled(job, q, i);
      if c.latest != b.latest { assert job.Passes(q) && c.latest == job.heights[q] - 1; }
    }
  }

  lemma WorkerEndsPlaced(b: Batch, q: nat, status: Status)
    requires Placed(b) && q in b.workers && |b.requests| == |b.stages| && q < |b.requests|
    ensures Placed(WorkerEnds(b, q, status)) && |b.queue| < |b.stages|
  {
    PlacedCount(b);
    assert multiset(b.workers) == multiset(b.workers - {q}) + multiset{q};
    IdsOnce(|b.stages|, q);
    assert multiset(b.queue)[q] + multiset(b.workers)[q] + multiset(b.answered)[q] == 1;
    assert q !in multiset(b.queue) && q !in multiset(b.answered);
  }

  lemma WorkerEndsConsistent(b: Batch, heights: seq<int>, retries: nat, q: nat, status: Status)
    requires Consistent(b, heights, retries) && q in b.workers && status != Fresh
    ensures Consistent(WorkerEnds(b, q, status), heights, retries) && |b.queue| < |heights|
    ensures var c := WorkerEnds(b, q, status); TotalMoves(c.requests, c.stages) < TotalMoves(b.requests, b.stages)
  {
    WorkerEndsPlaced(b, q, status);
    TotalMovesChange(b.requests, b.stages, q, WorkerEnds(b, q, status).requests[q], Queued);
    assert FetchesMatch(b.fetches[q], b.requests[q], b.stages[q], retries);
  }

  /** The results of a batch: one for each request, the block if and only if a fetch got it, after as many
      fetches as the answers of the chain ask for. */
  ghost predicate Collected(job: Job, results: seq<Option<int>>, answered: seq<nat>, fetches: seq<nat>)
  {
    var n := |job.heights|;
    && |results| == |answered| == |fetches| == n && multiset(answered) == multiset(Ids(n))
    && (forall j :: 0 <= j < n ==>
      answered[j] < n && results[j] == if job.Gets(answered[j]) then Some(job.heights[answered[j]]) else None)
    && (forall q :: 0 <= q < n ==> fetches[q] >= 1 && job.Settles(q, fetches[q] - 1))
  }

  /** The tip that a batch leaves: the lowest one that its requests have shown. */
  ghost predicate TipAfter(job: Job, tip: int, latest: int)
  {
    && latest <= tip
    && (forall q :: 0 <= q < |job.heights| && job.Passes(q) ==> latest < job.heights[q])
    && (latest == tip || exists q :: 0 <= q < |job.heights| && job.Passes(q) && latest == job.heights[q] - 1)
  }

  lemma AllCollected(b: Batch, job: Job)
    requires Consistent(b, job.heights, job.retries) && |b.results| == |job.heights| && Heard(b, job)
    ensures b.queue == [] && b.workers == {} && Collected(job, b.results, b.answered, b.fetches)
    ensures forall q :: 0 <= q < |b.stages| ==> b.stages[q] == Done
  {
    PlacedCount(b);
    var n := |job.heights|;
    assert multiset(b.queue) + multiset(b.workers) + multiset(b.answered) == multiset(b.answered);
    forall q | 0 <= q < n ensures q in b.answered && b.stages[q] == Done {
      IdsOnce(n, q);
      assert q in multiset(b.answered);
    }
    forall q | 0 <= q < n
      ensures b.fetches[q] >= 1 && job.Settles(q, b.fetches[q] - 1)
      ensures job.Gets(q) <==> b.requests[q].status == Fetched
    {
      assert HeardOf(b.requests[q], Done, job, q);
      assert FetchesMatch(b.fetches[q], b.requests[q], Done, job.retries);
      Settled(job, q, job.retries - b.requests[q].retry);
    }
    forall j | 0 <= j < |b.answered| ensures b.answered[j] < n { assert b.answered[j] in b.answered; }
  }

  /** One event of the loop: a worker ends, or the loop receives the head of the channel. */
  ghost predicate OneEvent(b: Batch, c: Batch, job: Job)
  {
    |b.requests| == |b.stages| == |b.fetches| &&
    (Received(b, c, job.honourTip) || exists q :: EndedWorker(b, c, job, q))
  }

  ghost predicate Received(b: Batch, c: Batch, honourTip: bool)
    requires |b.requests| == |b.stages| == |b.fetches|
  {
    b.queue != [] && b.queue[0] < |b.requests| && c == Receive(b, honourTip)
  }

  ghost predicate EndedWorker(b: Batch, c: Batch, job: Job, q: nat)
    requires |b.requests| == |b.stages|
  {
    q in b.workers && q < |b.requests| && b.requests[q].retry <= job.retries &&
    c == WorkerEnds(b, q, job.answers(q, job.retries - b.requests[q].retry))
  }

  /** The states of the loop, from the start on. */
  ghost predicate Follows(trace: seq<Batch>, first: Batch, job: Job)
  {
    trace != [] && trace[0] == first && forall i :: 0 < i < |trace| ==> OneEvent(trace[i - 1], trace[i], job)
  }

  /** No worker and no retry finds the channel full. */
  ghost predicate NeverFull(trace: seq<Batch>, capacity: nat) {
    forall i :: 0 <= i < |trace| ==> |trace[i].queue| <= capacity
  }

  /** The channel is closed after the last event only, when nothing is in it and no worker is out: no
      worker puts its request into a closed channel. */
  ghost predicate ClosesAtTheEnd(trace: seq<Batch>, n: nat)
  {
    && trace != [] && trace[|trace| - 1].queue == [] && trace[|trace| - 1].workers == {} &&
    |trace[|trace| - 1].results| == n
    && forall i :: 0 <= i < |trace| - 1 ==> |trace[i].results| < n
  }

  /** The loop has come to `b`, and every state before it had results to wait for. */
  ghost predicate ComesTo(trace: seq<Batch>, b: Batch, first: Batch, job: Job, capacity: nat)
  {
    Follows(trace, first, job) && trace[|trace| - 1] == b && NeverFull(trace, capacity) &&
    forall i :: 0 <= i < |trace| - 1 ==> |trace[i].results| < |job.heights|
  }

  lemma ComesToStart(first: Batch, job: Job, capacity: nat)
    requires |first.queue| <= capacity
    ensures ComesTo([first], first, first, job, capacity)
  {
  }

  lemma ComesToNext(trace: seq<Batch>, b: Batch, c: Batch, first: Batch, job: Job, capacity: nat)
    requires ComesTo(trace, b, first, job, capacity) && OneEvent(b, c, job)
    requires |b.results| < |job.heights| && Placed(c) && |c.stages| <= capacity
    ensures ComesTo(trace + [c], c, first, job, capacity)
  {
    PlacedCount(c);
    FollowsNext(trace, b, c, first, job);
  }

  lemma FollowsNext(trace: seq<Batch>, b: Batch, c: Batch, first: Batch, job: Job)
    requires Follows(trace, first, job) && trace[|trace| - 1] == b && OneEvent(b, c, job)
    ensures Follows(trace + [c], first, job)
  {
    PairsAppended(trace, c, (x, y) => OneEvent(x, y, job));
  }

  lemma PairsAppended<T(!new)>(s: seq<T>, x: T, ok: (T, T) -> bool)
    requires s != [] && (forall i :: 0 < i < |s| ==> ok(s[i - 1], s[i])) && ok(s[|s| - 1], x)
    ensures forall i :: 0 < i < |s| + 1 ==> ok((s + [x])[i - 1], (s + [x])[i])
  {
  }

  /** What the loop keeps. */
  ghost predicate Kept(b: Batch, job: Job, tip: int)
  {
    && Consistent(b, job.heights, job.retries) && Heard(b, job)
    && (if job.honourTip then b.latest == tip || Lowered(job.heights, b.latest) else b.latest == tip)
    && (InRange(job.heights) ==> TipSoFar(b, job, tip))
  }

  lemma StartKept(job: Job, tip: int)
    ensures Kept(Start(job.heights, job.retries, tip), job, tip)
  {
    var b := Start(job.heights, job.retries, tip);
    assert Heard(b, job);
  }

  /** The loop itself, for every scheduling of the workers and every answer of the chain. It ends. */
  method Collect(job: Job, capacity: nat, tip: int)
    returns (results: seq<Option<int>>, latest: int, ghost answered: seq<nat>, ghost fetches: seq<nat>,
             ghost trace: seq<Batch>)
    requires 1 <= |job.heights| <= capacity
    ensures Collected(job, results, answered, fetches)
    ensures if job.honourTip then latest == tip || Lowered(job.heights, latest) else latest == tip
    ensures InRange(job.heights) ==> TipAfter(job, tip, latest)
    ensures Follows(trace, Start(job.heights, job.retries, tip), job) && trace[|trace| - 1].results == results
    ensures NeverFull(trace, capacity) && ClosesAtTheEnd(trace, |job.heights|)
  {
    var b := Start(job.heights, job.retries, tip);
    ghost var first := b;
    trace := [b];
    ComesToStart(b, job, capacity);
    StartKept(job, tip);
    var closed := false;
    while !closed
      invariant Kept(b, job, tip)
      invariant |b.results| <= |job.heights| && (closed <==> |b.results| == |job.heights|)
      invariant ComesTo(trace, b, first, job, capacity)
      decreases TotalMoves(b.requests, b.stages)
    {
      b, trace := OneMore(b, job, capacity, tip, trace, first);
      closed := |b.results| == |job.heights|;
    }
    AllCollected(b, job);
    results, latest, answered, fetches := b.results, b.latest, b.answered, b.fetches;
  }

  /** Any event that is possible comes next. */
  method OneMore(b: Batch, job: Job, capacity: nat, ghost tip: int, ghost trace: seq<Batch>, ghost first: Batch)
    returns (c: Batch, ghost longer: seq<Batch>)
    requires Kept(b, job, tip) && |b.results| < |job.heights| <= capacity && ComesTo(trace, b, first, job, capacity)
    ensures Kept(c, job, tip) && |c.results| <= |job.heights| && ComesTo(longer, c, first, job, capacity)
    ensures TotalMoves(c.requests, c.stages) < TotalMoves(b.requests, b.stages)
  {
    PlacedCount(b);
    assert b.queue != [] || b.workers != {};
    var receive: bool := *;
    if b.workers != {} && (b.queue == [] || !receive) {
      c := EndOneWorker(b, job, tip);
    } else {
      c := ReceiveOne(b, job, tip);
    }
    ComesToNext(trace, b, c, first, job, capacity);
    longer := trace + [c];
    PlacedCount(c);
  }

  /** Any worker that is out ends, as the chain answers. */
  method EndOneWorker(b: Batch, job: Job, ghost tip: int) returns (c: Batch)
    requires Kept(b, job, tip) && b.workers != {}
    ensures Kept(c, job, tip) && OneEvent(b, c, job)
    ensures TotalMoves(c.requests, c.stages) < TotalMoves(b.requests, b.stages)
  {
    var q :| q in b.workers;
    assert HeardOf(b.requests[q], b.stages[q], job, q);
    var status := job.answers(q, job.retries - b.requests[q].retry);
    WorkerEndsConsistent(b, job.heights, job.retries, q, status);
    WorkerEndsHeard(b, job, q);
    c := WorkerEnds(b, q, status);
    assert EndedWorker(b, c, job, q);
  }

  method ReceiveOne(b: Batch, job: Job, ghost tip: int) returns (c: Batch)
    requires Kept(b, job, tip) && b.queue != []
    ensures Kept(c, job, tip) && OneEvent(b, c, job)
    ensures TotalMoves(c.requests, c.stages) < TotalMoves(b.requests, b.stages)
  {
    assert b.queue[0] in b.queue;
    ReceiveConsistent(b, job.heights, job.retries, job.honourTip);
    ReceiveMoves(b, job.honourTip);
    ReceiveLowers(b, job.heights, job.retries, job.honourTip, tip);
    ReceiveHeard(b, job);
    if InRange(job.heights) { ReceiveTip(b, job, tip); }
    c := Receive(b, job.honourTip);
  }

  // ---------- forwarding ----------

  /** The fetched heights among the results, in order. */
  function Values(results: seq<Option<int>>): seq<int>
  {
    if results == [] then []
    else (if results[0].Some? then [results[0].value] else []) + Values(results[1..])
  }

  lemma {:induction false} ValuesMembers(results: seq<Option<int>>)
    ensures (forall v :: v in Values(results) <==> Some(v) in results) && |Values(results)| <= |results|
    decreases |results|
  {
    if results != [] {
      ValuesMembers(results[1..]);
      assert results == [results[0]] + results[1..];
    }
  }

  lemma {:induction false} ValuesAppend(a: seq<Option<int>>, b: seq<Option<int>>)
    ensures Values(a + b) == Values(a) + Values(b)
    decreases |a|
  {
    if a == [] {
      assert a + b == b;
    } else {
      ValuesAppend(a[1..], b);
      assert (a + b)[1..] == a[1..] + b && (a + b)[0] == a[0];
      var first := if a[0].Some? then [a[0].value] else [];
      assert Values(a) == first + Values(a[1..]) && Values(a + b) == first + Values(a[1..] + b);
      assert first + (Values(a[1..]) + Values(b)) == first + Values(a[1..]) + Values(b);
    }
  }

  /** One more element. */
  lemma ValuesSnoc(a: seq<Option<int>>, v: Option<int>)
    ensures Values(a + [v]) == Values(a) + if v.Some? then [v.value] else []
  {
    ValuesAppend(a, [v]);
    assert [v][1..] == [];
  }

  /** The slice is compacted in place: reading and writing go through the same array. */
  method CompactInPlace(a: array<Option<int>>) returns (n: nat)
    modifies a
    ensures n <= a.Length && Values(a[..n]) == Values(old(a[..])) && forall i :: 0 <= i < n ==> a[i].Some?
  {
    n := 0;
    ghost var was := a[..];
    ghost var kept: seq<int> := [];
    for i := 0 to a.Length
      invariant n == |kept| <= i && kept == Values(was[..i])
      invariant forall j :: 0 <= j < n ==> a[j] == Some(kept[j])
      invariant forall j :: i <= j < a.Length ==> a[j] == was[j]
    {
      var v := a[i];
      assert was[..i + 1] == was[..i] + [v];
      ValuesSnoc(was[..i], v);
      if v.Some? {
        a[n] := v;
        kept := kept + [v.value];
        n := n + 1;
      }
    }
    assert was[..a.Length] == was;
    ValuesOf(a[..n], kept);
  }

  lemma {:induction false} ValuesOf(results: seq<Option<int>>, vs: seq<int>)
    requires |results| == |vs| && forall j :: 0 <= j < |vs| ==> results[j] == Some(vs[j])
    ensures Values(results) == vs
    decreases |vs|
  {
    if vs != [] { ValuesOf(results[1..], vs[1..]); }
  }

  /** sort.SliceStable by height. */
  function Sorted(s: seq<int>): (r: seq<int>)
    ensures multiset(r) == multiset(s) && Ascending(r)
  {
    if s == [] then []
    else
      assert s == [s[0]] + s[1..];
      Put(Sorted(s[1..]), s[0])
  }

  predicate Ascending(s: seq<int>) { |s| < 2 || (s[0] <= s[1] && Ascending(s[1..])) }

  function Put(s: seq<int>, x: int): (r: seq<int>)
    requires Ascending(s)
    ensures multiset(r) == multiset(s) + multiset{x} && Ascending(r) && r != []
    ensures r[0] == x || (s != [] && r[0] == s[0])
  {
    if s == [] || x <= s[0] then
      [x] + s
    else
      assert s == [s[0]] + s[1..];
      [s[0]] + Put(s[1..], x)
  }

  lemma {:induction false} AscendingDistinct(s: seq<int>)
    requires Ascending(s) && forall i, j :: 0 <= i < j < |s| ==> s[i] != s[j]
    ensures Increasing(s)
    decreases |s|
  {
    if |s| >= 2 { AscendingDistinct(s[1..]); }
  }

  predicate Increasing(s: seq<int>) { |s| < 2 || (s[0] < s[1] && Increasing(s[1..])) }

  /** The loop that sends to the (empty) output channel: it compares each value with its index. */
  method Forward(sorted: seq<int>, next: int, capacity: nat) returns (sent: seq<int>)
    requires Increasing(sorted) && |sorted| <= capacity && forall v :: v in sorted ==> v >= next
    ensures sent == Range(next, |sent|) && |sent| <= capacity
    ensures (forall v :: v in sent ==> v in sorted) && next + |sent| !in sorted
  {
    sent := [];
    for i := 0 to |sorted|
      invariant |sent| <= i && sent == Range(next, |sent|) && sent == sorted[..|sent|]
      invariant |sent| < i ==> sorted[|sent|] > next + |sent|
    {
      Spread(sorted, |sent|, i);
      if sorted[i] == next + i {
        assert |sent| < capacity;
        sent := sent + [sorted[i]];
      } else if |sent| == i {
        Spread(sorted, 0, i);
        assert sorted[0] in sorted;
      }
    }
    forall j | 0 <= j < |sorted| ensures sorted[j] != next + |sent| {
      if j < |sent| { assert sorted[j] == sent[j]; } else { Spread(sorted, |sent|, j); }
    }
  }

  lemma {:induction false} Spread(s: seq<int>, i: nat, j: nat)
    requires Increasing(s) && i <= j < |s|
    ensures s[j] - s[i] >= j - i
    decreases j
  {
    if i > 0 { Spread(s[1..], i - 1, j - 1); }
    else if j > 0 { Spread(s[1..], 0, j - 1); }
  }

  ghost predicate Distinct<T>(s: seq<T>) { forall i, j :: 0 <= i < j < |s| ==> s[i] != s[j] }

  lemma {:induction false} DistinctOnce<T>(s: seq<T>, x: T)
    requires Distinct(s)
    ensures multiset(s)[x] <= 1
    decreases |s|
  {
    if s != [] {
      DistinctOnce(s[1..], x);
      assert s == [s[0]] + s[1..];
      if x == s[0] { assert x !in multiset(s[1..]); }
    }
  }

  lemma OnceDistinct<T>(s: seq<T>)
    requires forall x :: multiset(s)[x] <= 1
    ensures Distinct(s)
  {
    forall i, j | 0 <= i < j < |s| ensures s[i] != s[j] {
      assert s == s[..j] + [s[j]] + s[j + 1..];
      assert s[i] in s[..j];
      assert multiset(s)[s[j]] == multiset(s[..j])[s[j]] + 1 + multiset(s[j + 1..])[s[j]];
    }
  }

  /** The values of a batch whose requests are for different heights are different. */
  lemma CollectedValues(job: Job, results: seq<Option<int>>, answered: seq<nat>, fetches: seq<nat>)
    requires Collected(job, results, answered, fetches) && Distinct(job.heights)
    ensures Distinct(Values(results)) && forall v :: v in Values(results) ==> v in job.heights
  {
    forall x ensures multiset(answered)[x] <= 1 { IdsOnce(|job.heights|, x); }
    OnceDistinct(answered);
    ValuesMembers(results);
    assert forall i, j :: 0 <= i < j < |results| && results[i].Some? && results[j].Some? ==> results[i] != results[j];
    ValuesDistinct(results);
  }

  /** Of the heights of a batch exactly those are among the results that were fetched. */
  lemma CollectedGets(job: Job, results: seq<Option<int>>, answered: seq<nat>, fetches: seq<nat>, q: nat)
    requires Collected(job, results, answered, fetches) && Distinct(job.heights) && q < |job.heights|
    ensures Some(job.heights[q]) in results <==> job.Gets(q)
  {
    IdsOnce(|job.heights|, q);
    assert q in multiset(answered);
    var j :| 0 <= j < |answered| && answered[j] == q;
    assert results[j] in results;
    if Some(job.heights[q]) in results {
      var k :| 0 <= k < |results| && results[k] == Some(job.heights[q]);
      assert job.heights[answered[k]] == job.heights[q];
    }
  }

  /** A batch for the heights from `next` on sends them up to the first one that it did not get. */
  ghost predicate BatchSent(job: Job, next: int, sent: seq<int>)
  {
    && |sent| <= |job.heights| && sent == Range(next, |sent|)
    && (forall q :: 0 <= q < |sent| ==> job.Gets(q)) && (|sent| < |job.heights| ==> !job.Gets(|sent|))
  }

  lemma RunIsSent(job: Job, next: int, results: seq<Option<int>>, answered: seq<nat>, fetches: seq<nat>, sent: seq<int>)
    requires Collected(job, results, answered, fetches) && LongestRun(results, next, sent)
    requires job.heights == Range(next, |job.heights|)
    ensures BatchSent(job, next, sent)
  {
    CollectedValues(job, results, answered, fetches);
    ValuesMembers(results);
    forall q | 0 <= q < |sent| ensures q < |job.heights| && job.Gets(q) {
      assert sent[q] in sent;
      assert sent[q] in Values(results) && sent[q] in job.heights;
      CollectedGets(job, results, answered, fetches, q);
    }
    if sent != [] { assert job.Gets(|sent| - 1); }
    if |sent| < |job.heights| { CollectedGets(job, results, answered, fetches, |sent|); }
  }

  /** When one of the fetches of each height succeeds, the whole batch is sent. */
  lemma AllIsSent(job: Job, next: int, sent: seq<int>)
    requires BatchSent(job, next, sent) && job.heights == Range(next, |job.heights|)
    ensures sent == job.heights <==> forall q :: 0 <= q < |job.heights| ==> job.Gets(q)
  {
  }

  lemma {:induction false} ValuesDistinct(results: seq<Option<int>>)
    requires forall i, j :: 0 <= i < j < |results| && results[i].Some? && results[j].Some? ==> results[i] != results[j]
    ensures Distinct(Values(results))
    decreases |results|
  {
    if results != [] {
      ValuesDistinct(results[1..]);
      if results[0].Some? {
        var v := results[0].value;
        ValuesMembers(results[1..]);
        assert Some(v) !in results[1..];
        assert v !in Values(results[1..]);
      }
    }
  }

  /** What is sent is exactly the longest run of heights from `next` on that were all fetched. */
  ghost predicate LongestRun(results: seq<Option<int>>, next: int, sent: seq<int>)
  {
    sent == Range(next, |sent|) && (forall v :: v in sent ==> Some(v) in results) && Some(next + |sent|) !in results
  }

  lemma SortedValues(results: seq<Option<int>>)
    requires Distinct(Values(results))
    ensures var r := Sorted(Values(results));
      Increasing(r) && |r| <= |results| && forall v :: v in r <==> Some(v) in results
  {
    var vs := Values(results);
    var r := Sorted(vs);
    ValuesMembers(results);
    forall x ensures multiset(r)[x] <= 1 { DistinctOnce(vs, x); }
    OnceDistinct(r);
    AscendingDistinct(r);
    assert |r| == |multiset(r)| == |multiset(vs)| == |vs|;
    assert forall v :: v in r <==> v in multiset(r);
    assert forall v :: v in vs <==> v in multiset(vs);
  }

  /** From the results of a batch to the output channel, which has room for all of it. */
  method CompactSortForward(bns: array<Option<int>>, next: int, capacity: nat) returns (sent: seq<int>)
    requires bns.Length <= capacity && Distinct(Values(bns[..])) && forall v :: v in Values(bns[..]) ==> v >= next
    modifies bns
    ensures LongestRun(old(bns[..]), next, sent) && |sent| <= capacity
  {
    SortedValues(bns[..]);
    ValuesMembers(bns[..]);
    var n := CompactInPlace(bns);
    var sorted := Sorted(Values(bns[..n]));
    sent := Forward(sorted, next, capacity);
  }

  /** One batch of the listeners, from its requests to the output channel. */
  method FetchRun(job: Job, capacity: nat, tip: int, next: int) returns (sent: seq<int>, latest: int)
    requires 1 <= |job.heights| <= capacity && job.heights == Range(next, |job.heights|)
    ensures BatchSent(job, next, sent) && |sent| <= capacity
    ensures if job.honourTip then latest == tip || Lowered(job.heights, latest) else latest == tip
    ensures InRange(job.heights) ==> TipAfter(job, tip, latest)
  {
    var results, t, answered, fetches, _ := Collect(job, capacity, tip);
    latest := t;
    CollectedValues(job, results, answered, fetches);
    var bns := new Option<int>[|results|](j requires 0 <= j < |results| => results[j]);
    assert bns[..] == results;
    sent := CompactSortForward(bns, next, capacity);
    RunIsSent(job, next, results, answered, fetches, sent);
  }
}
