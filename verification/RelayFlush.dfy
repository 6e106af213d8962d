/** What a flush brings back from the message store, by retry counts and positions. */
module RelayFlush {
  import opened Types
  import opened RelaySpec
  import opened RelayInvariants
  import opened RelayFlight
  import opened RelayLife

  /** How many of the entries have an attempt left. */
  function Live(es: seq<Entry>): (n: nat)
    ensures n <= |es|
  {
    if es == [] then 0 else Live(es[..|es| - 1]) + if es[|es| - 1].retry < 15 then 1 else 0
  }

  lemma {:induction false} NotStaleAppend(a: seq<Entry>, b: seq<Entry>)
    ensures NotStale(a + b) == NotStale(a) + NotStale(b)
    decreases |a|
  {
    if a == [] {
      assert a + b == b;
    } else {
      NotStaleAppend(a[1..], b);
      assert (a + b)[1..] == a[1..] + b && (a + b)[0] == a[0];
      var first := if a[0].IsStale() then [] else [a[0]];
      assert first + (NotStale(a[1..]) + NotStale(b)) == first + NotStale(a[1..]) + NotStale(b);
    }
  }

  /** What a flush brings back is what is not stale in the whole scan, or, when that is more than
      ten messages, in the shortest first part of it that has eleven. */
  lemma {:induction false} ActiveIsAFirstPart(es: seq<Entry>) returns (n: nat)
    ensures n <= |es| && Active(es) == NotStale(es[..n])
    ensures
      if |NotStale(es)| <= 10 then n == |es|
      else |Active(es)| == 11 && n > 0 && es[n - 1].retry < 15
    decreases |es|
  {
    n := |es|;
    assert es[..n] == es;
    if es == [] { return; }
    var front, e := es[..|es| - 1], es[|es| - 1];
    assert es == front + [e];
    NotStaleMore(front, e);
    if |NotStale(front)| > MAX_FLUSH {
      n := ActiveIsAFirstPart(front);
      assert front[..n] == es[..n];
    }
  }

  lemma NotStaleOne(e: Entry)
    ensures NotStale([e]) == if e.IsStale() then [] else [e]
  {
    assert [e][1..] == [] && NotStale([]) == [];
  }

  lemma NotStaleMore(front: seq<Entry>, e: Entry)
    ensures NotStale(front + [e]) == NotStale(front) + if e.IsStale() then [] else [e]
  {
    NotStaleAppend(front, [e]);
    NotStaleOne(e);
  }

  lemma {:induction false} NotStaleCount(es: seq<Entry>)
    ensures |NotStale(es)| == Live(es)
    decreases |es|
  {
    if es != [] {
      var front, e := es[..|es| - 1], es[|es| - 1];
      assert es == front + [e];
      NotStaleCount(front);
      NotStaleMore(front, e);
    }
  }

  lemma ActiveIsLive(es: seq<Entry>)
    ensures |Active(es)| == if Live(es) < 11 then Live(es) else 11
    ensures forall e :: e in Active(es) ==> e in es && e.retry < 15
  {
    NotStaleCount(es);
    NotStaleOnly(es);
  }

  /** An entry is selected if and only if it was attempted less than fifteen times, and at most ten such
      entries stand before it. */
  lemma ActiveIff(es: seq<Entry>, i: nat)
    requires i < |es| && forall j, k :: 0 <= j < k < |es| ==> es[j] != es[k]
    ensures es[i] in Active(es) <==> es[i].retry < 15 && Live(es[..i]) <= 10
  {
    var front, e, back := es[..i], es[i], es[i + 1..];
    assert es == front + [e] + back;
    NotStaleMore(front, e);
    NotStaleAppend(front + [e], back);
    NotStaleCount(front);
    NotStaleOnly(front);
    NotStaleOnly(back);
    assert e !in NotStale(front) && e !in NotStale(back);
    var all := NotStale(es);
    if e.retry < 15 {
      assert all == NotStale(front) + [e] + NotStale(back);
      assert all[Live(front)] == e;
      if Live(front) <= 10 { assert Active(es)[Live(front)] == e; }
    }
  }

  /** What a flush does to the cache for one stored message of the chain: it becomes a new object with its
      retry count if it has an attempt left and is among the first eleven such, and nothing else changes. */
  lemma FlushCaches<O>(s: State<O>, nid: string, listing: seq<Slot>, os: seq<O>, i: nat)
    requires WellFormed(s) && Enabled(s, Flush(nid, listing, os)) && i < |listing|
    ensures var es := Entries(s.messages, listing); var e := es[i]; var k := e.msg.Key();
      var t := Apply(s, Flush(nid, listing, os));
      if e.retry < 15 && Live(es[..i]) <= 10 then Holds(t, nid, k, e) && t.chains[nid].cache[k] !in s.heap
      else SameFor(s, t, k)
  {
    var es := Entries(s.messages, listing);
    var e, k := es[i], es[i].msg.Key();
    EntriesDiffer(s, nid, listing);
    ActiveIff(es, i);
    FlushEnters(s, nid, listing);
    var active := Active(es);
    assert es[i] == s.messages[listing[i]] && StoredOk(listing[i], e, s.h.lostBefore + s.h.writeFailures);
    assert forall e' :: e' in active && e'.msg.Key() == k ==> e' == e;
    if e in active {
      InsertAllAt(s, nid, active, os, k, e);
      InsertAllFresh(s, nid, active, os, k);
    } else {
      if Cached(s, k.src, k) { assert CachedOk(s, k.src, k); }
      InsertAllOthers(s, nid, active, os, k);
    }
  }

  lemma EntriesDiffer<O>(s: State<O>, nid: string, listing: seq<Slot>)
    requires StoresOk(s) && IsListing(s.messages, nid, listing)
    ensures var es := Entries(s.messages, listing); forall j, k :: 0 <= j < k < |es| ==> es[j] != es[k]
  {
    var lost := s.h.lostBefore + s.h.writeFailures;
    forall j | 0 <= j < |listing| ensures SrcSlot(s.messages[listing[j]].msg.Key()) == listing[j] {
      assert StoredOk(listing[j], s.messages[listing[j]], lost);
    }
  }

  lemma {:induction false} InsertAllFresh<O>(s: State<O>, nid: string, es: seq<Entry>, os: seq<O>, k: MessageKey)
    requires nid in s.chains && |es| == |os| && (exists e :: e in es && e.msg.Key() == k)
    ensures var t := InsertAll(s, nid, es, os); Cached(t, nid, k) && t.chains[nid].cache[k] in os
    decreases |es|
  {
    var t := Insert(s, nid, es[0], os[0]);
    if exists e :: e in es[1..] && e.msg.Key() == k {
      InsertAllFresh(t, nid, es[1..], os[1..], k);
    } else {
      InsertAllOther(t, nid, es[1..], os[1..], k);
    }
  }

  lemma {:induction false} InsertAllOther<O>(s: State<O>, nid: string, es: seq<Entry>, os: seq<O>, k: MessageKey)
    requires nid in s.chains && |es| == |os| && Cached(s, nid, k) && forall e :: e in es ==> e.msg.Key() != k
    ensures var t := InsertAll(s, nid, es, os); Cached(t, nid, k) && t.chains[nid].cache[k] == s.chains[nid].cache[k]
    decreases |es|
  {
    if es != [] {
      assert es[0] in es;
      InsertAllOther(Insert(s, nid, es[0], os[0]), nid, es[1..], os[1..], k);
    }
  }
}
