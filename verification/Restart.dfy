/** Restarts on one database: which heights all sessions together process. */
module Restart {
  import opened Types
  import opened RelaySpec
  import opened RelayHeights
  import Fetch
  import Listeners

  const TOP := 0xFFFF_FFFF_FFFF_FFF6    // 2^64 - 10

  datatype Kind = Evm | Icon {
    function Top(): nat { if Evm? then TOP else TWO64 / 2 }
  }

  /** A session of one chain. `counts` are the numbers of messages in the blocks that it processes. */
  datatype Session = Session(kind: Kind, configured: nat, latest: nat, finalityBlock: nat, counts: seq<nat>)

  /** startFromHeight of the EVM provider and StartFromHeight of the ICON provider; the former
      subtracts in uint64. */
  function StartHeight(x: Session, lastSaved: nat): nat
    requires x.latest < TWO64 && x.finalityBlock < TWO64
  {
    var query := if x.kind.Evm? then Sub64(x.latest, x.finalityBlock) else x.latest;
    if lastSaved != 0 && lastSaved < query then lastSaved
    else if x.configured != 0 && x.configured < query then x.configured
    else query
  }

  /** A restart never skips a height: also when the subtraction wraps. */
  lemma StartsAtOrBelowSaved(x: Session, lastSaved: nat)
    requires x.latest < TWO64 && x.finalityBlock < TWO64
    ensures lastSaved != 0 ==> StartHeight(x, lastSaved) <= lastSaved
    ensures lastSaved == 0 && x.configured == 0 && (x.kind.Icon? || x.finalityBlock <= x.latest) ==>
              StartHeight(x, lastSaved) == x.latest - if x.kind.Evm? then x.finalityBlock else 0
  {
  }

  predicate Below(height: nat, head: nat) { 0 < height < head }

  /** The three priorities of an EVM chain whose head is not below its finality depth: the saved height,
      then the configured one, if they are below the final head, and then the final head. */
  lemma EvmStart(x: Session, lastSaved: nat)
    requires x.kind.Evm? && x.finalityBlock <= x.latest < TWO64
    ensures var head := x.latest - x.finalityBlock;
      var saved, configured := Below(lastSaved, head), Below(x.configured, head);
      && (saved ==> StartHeight(x, lastSaved) == lastSaved)
      && (!saved && configured ==> StartHeight(x, lastSaved) == x.configured)
      && (!saved && !configured ==> StartHeight(x, lastSaved) == head)
  {
  }

  /** A head below the finality depth wraps around, to a height above all saved and configured ones. */
  lemma EvmStartWraps(x: Session, lastSaved: nat)
    requires x.kind.Evm? && x.latest < x.finalityBlock < TWO64
    requires lastSaved < x.latest + (TWO64 - x.finalityBlock) && x.configured < x.latest + (TWO64 - x.finalityBlock)
    ensures StartHeight(x, lastSaved) ==
      if lastSaved > 0 then lastSaved else if x.configured > 0 then x.configured
      else x.latest + (TWO64 - x.finalityBlock)
  {
  }

  /** The same for ICON, where the head counts as it is. */
  lemma IconStart(x: Session, lastSaved: nat)
    requires x.kind.Icon? && x.latest < TWO64 && x.finalityBlock < TWO64
    ensures var saved, configured := Below(lastSaved, x.latest), Below(x.configured, x.latest);
      && (saved ==> StartHeight(x, lastSaved) == lastSaved)
      && (!saved && configured ==> StartHeight(x, lastSaved) == x.configured)
      && (!saved && !configured ==> StartHeight(x, lastSaved) == x.latest)
  {
  }

  /** The ICON listener hands a block on with its height less one. */
  function First(x: Session, lastSaved: nat): nat
    requires Possible(x, lastSaved)
  {
    StartHeight(x, lastSaved) - if x.kind.Evm? then 0 else 1
  }

  /** All heights are in range: less than 2^64 - 10, and int64 for ICON, where a chain has at least one
      block. An EVM provider has a finality depth: it takes 10 for 0. */
  predicate Possible(x: Session, lastSaved: nat)
  {
    && x.latest < TWO64 && x.finalityBlock < TWO64
    && (if x.kind.Evm? then x.finalityBlock > 0 else 1 <= x.latest < TWO64 / 2)
    && StartHeight(x, lastSaved) + |x.counts| <= x.kind.Top()
  }

  function Blocks(first: nat, counts: seq<nat>): (bs: seq<Block>)
    ensures |bs| == |counts| && forall i :: 0 <= i < |bs| ==> bs[i] == Block(first + i, counts[i])
    ensures forall b :: b in bs ==> first <= b.height < first + |counts|
  {
    seq(|counts|, i requires 0 <= i < |counts| => Block(first + i, counts[i]))
  }

  lemma {:induction false} SaveBlocksBelow(lastSaved: nat, blocks: seq<Block>)
    requires lastSaved < TOP && forall b :: b in blocks ==> b.height < TOP
    ensures SaveBlocks(lastSaved, blocks) < TOP
    decreases |blocks|
  {
    if blocks != [] { SaveBlocksBelow(Save(lastSaved, blocks[0].height, blocks[0].messageCount), blocks[1..]); }
  }

  function SavedAfter(x: Session, lastSaved: nat): (saved: nat)
    requires Possible(x, lastSaved) && lastSaved < TOP
    ensures saved < TOP
  {
    SaveBlocksBelow(lastSaved, Blocks(First(x, lastSaved), x.counts));
    SaveBlocks(lastSaved, Blocks(First(x, lastSaved), x.counts))
  }

  function Span(first: nat, n: nat): (heights: set<nat>)
    ensures forall h :: h in heights <==> first <= h < first + n
  {
    if n == 0 then {} else Span(first, n - 1) + {first + n - 1}
  }

  function Heights(x: Session, lastSaved: nat): set<nat>
    requires Possible(x, lastSaved)
  {
    Span(First(x, lastSaved), |x.counts|)
  }

  /** The heights of a session are one stretch. With nothing saved and a configured height below the head,
      it begins exactly there, and for ICON one below. */
  lemma ConfiguredSession(x: Session, h: nat)
    requires Possible(x, 0) && x.configured > 0
    requires if x.kind.Evm? then x.configured + x.finalityBlock < x.latest else x.configured < x.latest
    ensures var first := if x.kind.Evm? then x.configured else x.configured - 1;
      h in Heights(x, 0) <==> first <= h < first + |x.counts|
  {
    if x.kind.Evm? { EvmStart(x, 0); } else { IconStart(x, 0); }
  }

  /** And a session with a saved height below the head begins there, whatever is configured. */
  lemma SavedSession(x: Session, lastSaved: nat, h: nat)
    requires Possible(x, lastSaved) && lastSaved > 0
    requires if x.kind.Evm? then lastSaved + x.finalityBlock < x.latest else lastSaved < x.latest
    ensures var first := if x.kind.Evm? then lastSaved else lastSaved - 1;
      h in Heights(x, lastSaved) <==> first <= h < first + |x.counts|
  {
    if x.kind.Evm? { EvmStart(x, lastSaved); } else { IconStart(x, lastSaved); }
  }

  // ---------- what a session leaves behind ----------

  lemma {:induction false} BlocksTail(first: nat, counts: seq<nat>)
    requires counts != []
    ensures Blocks(first, counts)[1..] == Blocks(first + 1, counts[1..])
    ensures Blocks(first, counts)[0] == Block(first, counts[0])
  {
  }

  /** From a saved height that was one of the blocks, or the first block less than eleven above it,
      the saved height only follows the blocks. */
  lemma {:induction false} SavedFollows(saved: nat, first: nat, counts: seq<nat>)
    requires saved <= first && first + |counts| <= TOP
    ensures var after := SaveBlocks(saved, Blocks(first, counts)); after == saved || first <= after < first + |counts|
    ensures SaveBlocks(saved, Blocks(first, counts)) == saved <==>
              counts == [] ||
              (|counts| + first <= saved + 11 && forall i :: 0 <= i < |counts| && counts[i] > 0 ==> first + i == saved)
    decreases |counts|
  {
    if counts != [] {
      BlocksTail(first, counts);
      SaveAbove(saved, first, counts[0]);
      var saved' := Save(saved, first, counts[0]);
      SavedFollows(saved', first + 1, counts[1..]);
      assert forall i :: 0 < i < |counts| ==> counts[i] == counts[1..][i - 1];
      assert forall i :: 0 <= i < |counts| - 1 ==> counts[1..][i] == counts[i + 1];
    }
  }

  lemma SaveAbove(saved: nat, height: nat, messageCount: nat)
    requires saved <= height < TOP
    ensures Save(saved, height, messageCount) == if messageCount > 0 || height > saved + 10 then height else saved
  {
  }

  /** A session that starts from nothing saved leaves nothing saved if and only if it stays below
      height 11 and has no message above height 0. */
  lemma FirstSessionSaves(x: Session)
    requires Possible(x, 0) && x.counts != []
    ensures SavedAfter(x, 0) != 0 <==>
              First(x, 0) + |x.counts| > 11 || exists i :: 0 <= i < |x.counts| && x.counts[i] > 0 && First(x, 0) + i > 0
    ensures SavedAfter(x, 0) == 0 || SavedAfter(x, 0) in Heights(x, 0)
  {
    SavedFollows(0, First(x, 0), x.counts);
  }

  /** A block at or below the saved height is saved: the difference wraps. */
  lemma SaveRewinds(lastSaved: nat, height: nat, messageCount: nat)
    requires height <= lastSaved < TOP
    ensures Save(lastSaved, height, messageCount) == height
  {
  }

  /** A session that restarts from a saved height saves its first block at once. */
  lemma LaterSessionSaves(x: Session, lastSaved: nat)
    requires 0 < lastSaved < TOP && Possible(x, lastSaved) && x.counts != []
    ensures SavedAfter(x, lastSaved) in Heights(x, lastSaved)
    ensures SavedAfter(x, lastSaved) == First(x, lastSaved) <==>
              |x.counts| <= 11 && forall i :: 0 < i < |x.counts| ==> x.counts[i] == 0
  {
    StartsAtOrBelowSaved(x, lastSaved);
    RestSaves(lastSaved, First(x, lastSaved), x.counts);
  }

  lemma RestSaves(saved: nat, first: nat, counts: seq<nat>)
    requires first <= saved < TOP && counts != [] && first + |counts| <= TOP
    ensures var after := SaveBlocks(saved, Blocks(first, counts));
      && first <= after < first + |counts|
      && (after == first <==> |counts| <= 11 && forall i :: 0 < i < |counts| ==> counts[i] == 0)
  {
    BlocksTail(first, counts);
    SaveRewinds(saved, first, counts[0]);
    SavedFollows(first, first + 1, counts[1..]);
    assert forall i :: 0 < i < |counts| ==> counts[i] == counts[1..][i - 1];
    assert forall i :: 0 <= i < |counts[1..]| ==> counts[1..][i] == counts[i + 1];
  }

  // ---------- sessions are runs ----------

  /** A run of the relayer is such a session, if its blocks of the chain are the first heights that
      the listener handed on, and its writes to the block store succeed. */
  lemma RunIsSession<O>(s: State<O>, steps: seq<Step<O>>, nid: string, x: Session)
    requires Init(s) && ValidRun(s, steps) && nid in s.chains && WritesSucceed(steps)
    requires Reloaded(s, nid) < TOP && Possible(x, Reloaded(s, nid))
    requires BlocksOf(steps, nid) == Blocks(First(x, Reloaded(s, nid)), x.counts)
    ensures Reloaded(Exec(s, steps), nid) == SavedAfter(x, Reloaded(s, nid))
  {
    assert InitChain(s.chains[nid], nid, s.blocks);
    RunSaves(s, steps, nid);
  }

  /** The channel between them keeps the order: the heights of the blocks are the first ones that were sent. */
  ghost predicate FirstSent(blocks: seq<Block>, emitted: seq<int>)
  {
    |blocks| <= |emitted| && forall i :: 0 <= i < |blocks| ==> blocks[i].height == emitted[i]
  }

  function CountsOf(blocks: seq<Block>): seq<nat> {
    seq(|blocks|, i requires 0 <= i < |blocks| => blocks[i].messageCount)
  }

  lemma FirstSentAreBlocks(blocks: seq<Block>, emitted: seq<int>, first: nat)
    requires FirstSent(blocks, emitted) && emitted == Fetch.Range(first, |emitted|)
    ensures blocks == Blocks(first, CountsOf(blocks))
  {
  }

  /** The blocks that come from an EVM listener, in whatever schedule it ran, are those of a session. */
  lemma EvmSession(l: Listeners.EvmListener, blocks: seq<Block>, x: Session, lastSaved: nat)
    requires l.InOrder() && FirstSent(blocks, l.emitted)
    requires x.kind.Evm? && x.counts == CountsOf(blocks) && Possible(x, lastSaved)
    requires l.start == StartHeight(x, lastSaved)
    ensures blocks == Blocks(First(x, lastSaved), x.counts)
  {
    FirstSentAreBlocks(blocks, l.emitted, First(x, lastSaved));
  }

  /** And so are those that come from an ICON listener. */
  lemma IconSession(l: Listeners.IconListener, blocks: seq<Block>, x: Session, lastSaved: nat)
    requires l.Valid() && FirstSent(blocks, l.emitted)
    requires x.kind.Icon? && x.counts == CountsOf(blocks) && Possible(x, lastSaved)
    requires l.start == StartHeight(x, lastSaved)
    ensures blocks == Blocks(First(x, lastSaved), x.counts)
  {
    FirstSentAreBlocks(blocks, l.emitted, First(x, lastSaved));
  }

  // ---------- all sessions ----------

  ghost predicate AllPossible(xs: seq<Session>, lastSaved: nat)
    requires lastSaved < TOP
    decreases |xs|
  {
    xs == [] || (Possible(xs[0], lastSaved) && AllPossible(xs[1..], SavedAfter(xs[0], lastSaved)))
  }

  ghost function AllHeights(xs: seq<Session>, lastSaved: nat): set<nat>
    requires lastSaved < TOP && AllPossible(xs, lastSaved)
    decreases |xs|
  {
    if xs == [] then {} else Heights(xs[0], lastSaved) + AllHeights(xs[1..], SavedAfter(xs[0], lastSaved))
  }

  /** Every session that processes a block leaves a saved height that a restart will not ignore. */
  ghost predicate NoneForgets(xs: seq<Session>, lastSaved: nat)
    requires lastSaved < TOP && AllPossible(xs, lastSaved)
    decreases |xs|
  {
    xs == [] ||
    ((xs[0].counts == [] || SavedAfter(xs[0], lastSaved) != 0) && NoneForgets(xs[1..], SavedAfter(xs[0], lastSaved)))
  }

  /** From `low` to the highest of `heights`, none is missing. */
  ghost predicate NoGap(heights: set<nat>, low: nat)
  {
    forall h: nat, top :: low <= h <= top && top in heights ==> h in heights
  }

  lemma {:induction false} NoGapContinues(heights: set<nat>, low: nat, xs: seq<Session>, lastSaved: nat)
    requires lastSaved in heights && 0 < lastSaved < TOP && NoGap(heights, low)
    requires AllPossible(xs, lastSaved) && NoneForgets(xs, lastSaved)
    ensures NoGap(heights + AllHeights(xs, lastSaved), low)
    decreases |xs|
  {
    if xs == [] {
      assert heights + AllHeights(xs, lastSaved) == heights;
    } else {
      var more := Heights(xs[0], lastSaved);
      var saved := SavedAfter(xs[0], lastSaved);
      StartsAtOrBelowSaved(xs[0], lastSaved);
      if xs[0].counts != [] { LaterSessionSaves(xs[0], lastSaved); }
      assert NoGap(heights + more, low);
      NoGapContinues(heights + more, low, xs[1..], saved);
      assert heights + AllHeights(xs, lastSaved) == heights + more + AllHeights(xs[1..], saved);
    }
  }

  /** Over any sequence of sessions on one database, whatever happens in them: from the first height
      that the first of them processes, to the highest that any of them processes, none is missing. */
  lemma NoGapAcrossRestarts(xs: seq<Session>, lastSaved: nat)
    requires lastSaved < TOP && AllPossible(xs, lastSaved) && NoneForgets(xs, lastSaved)
    requires xs != [] && xs[0].counts != []
    ensures NoGap(AllHeights(xs, lastSaved), First(xs[0], lastSaved))
  {
    if lastSaved == 0 { FirstSessionSaves(xs[0]); } else { LaterSessionSaves(xs[0], lastSaved); }
    NoGapContinues(Heights(xs[0], lastSaved), First(xs[0], lastSaved), xs[1..], SavedAfter(xs[0], lastSaved));
  }

  /** The condition is exact: after a session that processed a block, no next session leaves a gap
      if and only if the saved height is not 0. */
  lemma ForgettingLeavesGaps(x: Session, lastSaved: nat)
    requires lastSaved < TOP && Possible(x, lastSaved) && x.counts != []
    requires First(x, lastSaved) + |x.counts| + 12 < x.kind.Top()
    ensures var saved := SavedAfter(x, lastSaved);
      saved != 0 <==> forall y :: Possible(y, saved) && y.kind == x.kind ==>
        NoGap(AllHeights([x, y], lastSaved), First(x, lastSaved))
  {
    var first := First(x, lastSaved);
    var saved := SavedAfter(x, lastSaved);
    forall y | Possible(y, saved)
      ensures AllPossible([x, y], lastSaved)
      ensures AllHeights([x, y], lastSaved) == Heights(x, lastSaved) + Heights(y, saved)
    {
      TwoSessions(x, y, lastSaved);
    }
    if saved != 0 {
      forall y | Possible(y, saved) ensures NoGap(AllHeights([x, y], lastSaved), first) {
        if lastSaved == 0 { FirstSessionSaves(x); } else { LaterSessionSaves(x, lastSaved); }
        StartsAtOrBelowSaved(y, saved);
      }
    } else {
      var missed := first + |x.counts|;
      var y := if x.kind.Evm? then Session(Evm, 0, missed + 11, 10, [0]) else Session(Icon, 0, missed + 2, 0, [0]);
      assert Possible(y, 0) && missed + 1 in Heights(y, 0) && missed !in Heights(x, lastSaved) + Heights(y, 0);
      assert !NoGap(AllHeights([x, y], lastSaved), first);
    }
  }

  lemma TwoSessions(x: Session, y: Session, lastSaved: nat)
    requires lastSaved < TOP && Possible(x, lastSaved) && Possible(y, SavedAfter(x, lastSaved))
    ensures AllPossible([x, y], lastSaved)
    ensures AllHeights([x, y], lastSaved) == Heights(x, lastSaved) + Heights(y, SavedAfter(x, lastSaved))
  {
    assert [x, y][1..] == [y] && [y][1..] == [];
    assert AllPossible([], SavedAfter(y, SavedAfter(x, lastSaved)));
    assert AllPossible([y], SavedAfter(x, lastSaved));
    assert AllHeights([y], SavedAfter(x, lastSaved)) == Heights(y, SavedAfter(x, lastSaved));
  }

  // ---------- below the first height ----------

  ghost predicate HoleFree(heights: set<nat>)
  {
    forall a: nat, h: nat, b: nat :: a in heights && b in heights && a <= h <= b ==> h in heights
  }

  /** After each session, no height is missing between any two that were processed. */
  ghost predicate NeverAHole(heights: set<nat>, xs: seq<Session>, lastSaved: nat)
    requires lastSaved < TOP && AllPossible(xs, lastSaved)
    decreases |xs|
  {
    HoleFree(heights) &&
    (xs == [] || NeverAHole(heights + Heights(xs[0], lastSaved), xs[1..], SavedAfter(xs[0], lastSaved)))
  }

  /** A session that starts below all heights so far goes on until it meets them. */
  ghost predicate AllComeUp(low: nat, xs: seq<Session>, lastSaved: nat)
    requires lastSaved < TOP && AllPossible(xs, lastSaved)
    decreases |xs|
  {
    xs == [] ||
    var saved := SavedAfter(xs[0], lastSaved);
    if xs[0].counts == [] then AllComeUp(low, xs[1..], saved)
    else
      var first := First(xs[0], lastSaved);
      first + |xs[0].counts| >= low && AllComeUp(if first < low then first else low, xs[1..], saved)
  }

  lemma SpansJoin(low: nat, high: nat, first: nat, n: nat)
    requires low <= high && first <= high && n > 0
    ensures HoleFree(Span(low, high + 1 - low) + Span(first, n)) <==> first + n >= low
    ensures first + n >= low ==>
              var l := if first < low then first else low;
              var h := if first + n - 1 > high then first + n - 1 else high;
              Span(low, high + 1 - low) + Span(first, n) == Span(l, h + 1 - l)
  {
    var all := Span(low, high + 1 - low) + Span(first, n);
    if first + n < low { assert first in all && low in all && first + n !in all; }
  }

  /** Over any sequence of sessions that leave a saved height, on a database whose sessions so far
      processed all heights from `low` to `high`: no hole is ever left if and only if each session that
      starts lower than all before it comes up to them. */
  lemma {:induction false} NeverAHoleIff(low: nat, high: nat, xs: seq<Session>, lastSaved: nat)
    requires 0 < lastSaved < TOP && low <= lastSaved <= high && AllPossible(xs, lastSaved) && NoneForgets(xs, lastSaved)
    ensures NeverAHole(Span(low, high + 1 - low), xs, lastSaved) <==> AllComeUp(low, xs, lastSaved)
    decreases |xs|
  {
    if xs != [] {
      var saved := SavedAfter(xs[0], lastSaved);
      if xs[0].counts == [] {
        assert Span(low, high + 1 - low) + Heights(xs[0], lastSaved) == Span(low, high + 1 - low);
        NeverAHoleIff(low, high, xs[1..], saved);
      } else {
        var l, h := Joined(low, high, xs[0], lastSaved);
        if First(xs[0], lastSaved) + |xs[0].counts| >= low { NeverAHoleIff(l, h, xs[1..], saved); }
      }
    }
  }

  /** One session more. */
  lemma Joined(low: nat, high: nat, x: Session, lastSaved: nat) returns (l: nat, h: nat)
    requires 0 < lastSaved < TOP && low <= lastSaved <= high && Possible(x, lastSaved) && x.counts != []
    ensures var first := First(x, lastSaved); var heights := Span(low, high + 1 - low) + Heights(x, lastSaved);
      && l == (if first < low then first else low) && l <= SavedAfter(x, lastSaved) <= h
      && (HoleFree(heights) <==> first + |x.counts| >= low) &&
      (first + |x.counts| >= low ==> heights == Span(l, h + 1 - l))
  {
    var first, n := First(x, lastSaved), |x.counts|;
    StartsAtOrBelowSaved(x, lastSaved);
    LaterSessionSaves(x, lastSaved);
    SpansJoin(low, high, first, n);
    l := if first < low then first else low;
    h := if first + n - 1 > high then first + n - 1 else high;
  }

  lemma NoHoleAtFirst(xs: seq<Session>, lastSaved: nat)
    requires lastSaved < TOP && AllPossible(xs, lastSaved) && xs != []
    ensures NeverAHole({}, xs, lastSaved) <==>
      NeverAHole(Heights(xs[0], lastSaved), xs[1..], SavedAfter(xs[0], lastSaved))
  {
    var none: set<nat> := {};
    assert none + Heights(xs[0], lastSaved) == Heights(xs[0], lastSaved);
  }

  lemma SavesOwnBlock(x: Session, lastSaved: nat)
    requires lastSaved < TOP && Possible(x, lastSaved) && x.counts != [] && SavedAfter(x, lastSaved) != 0
    ensures First(x, lastSaved) <= SavedAfter(x, lastSaved) < First(x, lastSaved) + |x.counts|
  {
    if lastSaved == 0 { FirstSessionSaves(x); } else { LaterSessionSaves(x, lastSaved); }
  }

  /** So from the very first session on. */
  lemma NeverAHoleFromTheStart(xs: seq<Session>, lastSaved: nat)
    requires lastSaved < TOP && AllPossible(xs, lastSaved) && NoneForgets(xs, lastSaved) && xs != []
    requires xs[0].counts != []
    ensures NeverAHole({}, xs, lastSaved) <==> AllComeUp(First(xs[0], lastSaved), xs[1..], SavedAfter(xs[0], lastSaved))
  {
    NoHoleAtFirst(xs, lastSaved);
    NeverAHoleAfter(xs[0], xs[1..], lastSaved);
  }

  lemma NeverAHoleAfter(x: Session, xs: seq<Session>, lastSaved: nat)
    requires lastSaved < TOP && Possible(x, lastSaved) && x.counts != [] && SavedAfter(x, lastSaved) != 0
    requires AllPossible(xs, SavedAfter(x, lastSaved)) && NoneForgets(xs, SavedAfter(x, lastSaved))
    ensures NeverAHole(Heights(x, lastSaved), xs, SavedAfter(x, lastSaved)) <==>
      AllComeUp(First(x, lastSaved), xs, SavedAfter(x, lastSaved))
  {
    var first, saved := First(x, lastSaved), SavedAfter(x, lastSaved);
    SavesOwnBlock(x, lastSaved);
    var high := first + |x.counts| - 1;
    assert high + 1 - first == |x.counts|;
    NeverAHoleIff(first, high, xs, saved);
  }

  /** For two sessions: the second one leaves a hole exactly when it stops below the first height of
      the first one. */
  lemma TwoSessionsHole(x: Session, y: Session, lastSaved: nat)
    requires lastSaved < TOP && Possible(x, lastSaved) && x.counts != [] && SavedAfter(x, lastSaved) != 0
    requires Possible(y, SavedAfter(x, lastSaved)) && y.counts != []
    ensures AllPossible([x, y], lastSaved)
    ensures HoleFree(AllHeights([x, y], lastSaved)) <==>
      First(y, SavedAfter(x, lastSaved)) + |y.counts| >= First(x, lastSaved)
  {
    TwoSessions(x, y, lastSaved);
    SavesOwnBlock(x, lastSaved);
    StartsAtOrBelowSaved(y, SavedAfter(x, lastSaved));
    var first := First(x, lastSaved);
    SpansJoin(first, first + |x.counts| - 1, First(y, SavedAfter(x, lastSaved)), |y.counts|);
  }

  /** Such sessions exist: the second one is configured to start lower, at a time when its node is behind. */
  lemma HoleBelowTheFirstHeight()
    ensures var x := Session(Evm, 0, 110, 10, [1]); var y := Session(Evm, 50, 100, 10, [1]);
      AllPossible([x, y], 0) && !HoleFree(AllHeights([x, y], 0))
  {
    var x, y := Session(Evm, 0, 110, 10, [1]), Session(Evm, 50, 100, 10, [1]);
    SavedFollows(0, 100, [1]);
    FirstSessionSaves(x);
    assert SavedAfter(x, 0) == 100 && First(y, 100) == 50;
    TwoSessionsHole(x, y, 0);
  }

  // ---------- ICON restarts creep down ----------

  /** An ICON session that is stopped before its twelfth block, and sees no message, leaves the saved
      height one lower than it found it. */
  lemma IconRestartCreeps(x: Session, lastSaved: nat)
    requires x.kind.Icon? && 0 < lastSaved < x.latest && Possible(x, lastSaved) && x.counts != []
    ensures SavedAfter(x, lastSaved) == lastSaved - 1 <==>
      |x.counts| <= 11 && forall i :: 0 < i < |x.counts| ==> x.counts[i] == 0
  {
    LaterSessionSaves(x, lastSaved);
  }

  function Stopped(latest: nat): Session { Session(Icon, 0, latest, 0, [0]) }

  function TimesStopped(latest: nat, n: nat): seq<Session>
  {
    if n == 0 then [] else [Stopped(latest)] + TimesStopped(latest, n - 1)
  }

  /** So after as many such sessions as the saved height is high, it is forgotten. */
  lemma {:induction false} IconRestartsForget(latest: nat, lastSaved: nat)
    requires lastSaved < latest < TWO64 / 2
    ensures AllPossible(TimesStopped(latest, lastSaved), lastSaved)
    ensures SavedAfterAll(TimesStopped(latest, lastSaved), lastSaved) == 0
    decreases lastSaved
  {
    if lastSaved > 0 {
      IconRestartCreeps(Stopped(latest), lastSaved);
      IconRestartsForget(latest, lastSaved - 1);
      PrependSession(Stopped(latest), TimesStopped(latest, lastSaved - 1), lastSaved);
    }
  }

  lemma PrependSession(x: Session, xs: seq<Session>, lastSaved: nat)
    requires lastSaved < TOP && Possible(x, lastSaved) && AllPossible(xs, SavedAfter(x, lastSaved))
    ensures AllPossible([x] + xs, lastSaved)
    ensures SavedAfterAll([x] + xs, lastSaved) == SavedAfterAll(xs, SavedAfter(x, lastSaved))
  {
    assert ([x] + xs)[1..] == xs;
  }

  ghost function SavedAfterAll(xs: seq<Session>, lastSaved: nat): nat
    requires lastSaved < TOP && AllPossible(xs, lastSaved)
    decreases |xs|
  {
    if xs == [] then lastSaved else SavedAfterAll(xs[1..], SavedAfter(xs[0], lastSaved))
  }
}
