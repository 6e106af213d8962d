/** What the scans of the message store and of the finality store return. */
module StoreScans {
  import opened Types
  import opened StoreKeys
  import opened Store
  import opened StoreRefinement
  import opened RelaySpec

  /** The scan for a chain meets this slot. */
  predicate Met(nid: string, sl: Slot) { nid <= sl.nid + "-" + Decimal(sl.sn) }

  /** The slots behind the keys of a scan, in the order of the keys. */
  ghost predicate Behind<V>(key: Slot -> string, m: map<Slot, V>, nid: string, keys: seq<string>, slots: seq<Slot>)
  {
    && |slots| == |keys| && (forall i :: 0 <= i < |keys| ==> key(slots[i]) == keys[i])
    && (forall i, j :: 0 <= i < j < |slots| ==> slots[i] != slots[j])
    && (forall sl :: sl in slots <==> sl in m && Met(nid, sl))
  }

  /** All keys of the database with the prefix of one store are keys of that store. */
  ghost predicate OwnKeys(data: map<string, Value>, prefix: string, key: Slot -> string)
  {
    && (forall sl :: key(sl) == SlotKey(prefix, sl))
    && forall s :: s in data && HasPrefix(s, prefix) ==> Names(key, s)
  }

  lemma OwnKeysOfStores(data: map<string, Value>, m: Maps)
    requires Represents(data, m)
    ensures OwnKeys(data, MESSAGE, MessageKeyOf) && OwnKeys(data, FINALITY, FinalityKeyOf)
  {
    forall sl: Slot, nid: string
      ensures MessageKeyOf(sl) != "" && MessageKeyOf(sl)[0] == 'm' && FinalityKeyOf(sl) != ""
      ensures FinalityKeyOf(sl)[0] == 'f'
      ensures BlockKey(nid) != "" && BlockKey(nid)[0] == 'b'
    {
      SlotKeyIs(MESSAGE, sl);
      SlotKeyIs(FINALITY, sl);
      BlockKeyIs(nid);
    }
    forall s | s in data && (HasPrefix(s, MESSAGE) || HasPrefix(s, FINALITY))
      ensures HasPrefix(s, MESSAGE) ==> Names(MessageKeyOf, s)
      ensures HasPrefix(s, FINALITY) ==> Names(FinalityKeyOf, s)
    {
      assert Names(MessageKeyOf, s) || Names(FinalityKeyOf, s) || Names(BlockKey, s);
      assert HasPrefix(s, MESSAGE) ==> s[0] == 'm';
      assert HasPrefix(s, FINALITY) ==> s[0] == 'f';
    }
  }

  lemma ScanSlots<V>(data: map<string, Value>, prefix: string, key: Slot -> string, value: V -> Value, m: map<Slot, V>,
                     nid: string, keys: seq<string>) returns (slots: seq<Slot>)
    requires Holds(data, key, value, m) && OwnKeys(data, prefix, key)
    requires IsScan(data, ScanPrefix(prefix, nid), keys)
    ensures Behind(key, m, nid, keys, slots)
  {
    forall s | s in keys ensures Names(key, s) {
      ScanPrefixIs(prefix, nid);
      assert prefix <= ScanPrefix(prefix, nid) <= s;
      assert HasPrefix(s, prefix);
    }
    forall sl: Slot ensures HasPrefix(key(sl), ScanPrefix(prefix, nid)) <==> Met(nid, sl) {
      ScanMeets(prefix, nid, sl);
    }
    slots := SlotsOf(key, keys);
    forall i, j | 0 <= i < j < |slots| ensures slots[i] != slots[j] {
      assert Before(keys[i], keys[j]);
      BeforeTotal(keys[i], keys[i]);
    }
    forall sl ensures sl in slots <==> sl in m && Met(nid, sl) {
      if sl in m && Met(nid, sl) {
        assert key(sl) in keys;
        var i :| 0 <= i < |keys| && keys[i] == key(sl);
        SlotKeyInjective(prefix, slots[i], sl);
      }
    }
  }

  lemma {:induction false} SlotsOf(key: Slot -> string, keys: seq<string>) returns (slots: seq<Slot>)
    requires forall s :: s in keys ==> Names(key, s)
    ensures |slots| == |keys| && forall i :: 0 <= i < |keys| ==> key(slots[i]) == keys[i]
    decreases |keys|
  {
    if keys == [] { return []; }
    assert keys[0] in keys;
    var sl: Slot :| key(sl) == keys[0];
    var rest := SlotsOf(key, keys[1..]);
    slots := [sl] + rest;
  }

  /** A scan for a chain is exact if and only if it meets no message of another chain. */
  lemma ExactScan<V>(key: Slot -> string, m: map<Slot, V>, nid: string, keys: seq<string>, slots: seq<Slot>)
    requires Behind(key, m, nid, keys, slots)
    ensures (forall sl :: sl in slots <==> sl in m && sl.nid == nid) <==>
      (forall sl :: sl in m && Met(nid, sl) ==> sl.nid == nid)
  {
    forall sl: Slot | sl.nid == nid ensures Met(nid, sl) {
      assert nid <= nid + "-" + Decimal(sl.sn);
    }
  }

  ghost predicate NidsOf<V>(m: map<Slot, V>, nids: set<string>) { forall sl :: sl in m ==> sl.nid in nids }

  /** Prefix-free NIDs are enough. */
  lemma PrefixFreeScan<V>(key: Slot -> string, m: map<Slot, V>, nids: set<string>, nid: string, keys: seq<string>,
                          slots: seq<Slot>)
    requires Behind(key, m, nid, keys, slots) && PrefixFree(nids) && NidsOf(m, nids) && nid in nids
    ensures forall sl :: sl in slots <==> sl in m && sl.nid == nid
  {
    forall sl | sl in m ensures Met(nid, sl) <==> sl.nid == nid { PrefixFreeMeets(nids, nid, sl); }
  }

  lemma ExactPart<V>(data: map<string, Value>, prefix: string, key: Slot -> string, value: V -> Value, m: map<Slot, V>,
                     nids: set<string>, nid: string, keys: seq<string>) returns (slots: seq<Slot>)
    requires Holds(data, key, value, m) && OwnKeys(data, prefix, key) && IsScan(data, ScanPrefix(prefix, nid), keys)
    requires PrefixFree(nids) && NidsOf(m, nids) && nid in nids
    ensures Behind(key, m, nid, keys, slots) && forall sl :: sl in slots <==> sl in m && sl.nid == nid
    ensures forall i :: 0 <= i < |keys| ==> keys[i] in data && slots[i] in m && data[keys[i]] == value(m[slots[i]])
  {
    slots := ScanSlots(data, prefix, key, value, m, nid, keys);
    PrefixFreeScan(key, m, nids, nid, keys, slots);
    forall i | 0 <= i < |keys| ensures keys[i] in data && slots[i] in m && data[keys[i]] == value(m[slots[i]]) {
      assert slots[i] in slots && keys[i] in keys && key(slots[i]) == keys[i];
    }
  }

  /** The slots are in the order of their keys. */
  ghost predicate KeyOrdered(key: Slot -> string, slots: seq<Slot>)
  {
    forall i, j :: 0 <= i < j < |slots| ==> Before(key(slots[i]), key(slots[j]))
  }

  ghost predicate SlotsOfChain<V>(m: map<Slot, V>, nid: string, slots: seq<Slot>)
  {
    && (forall i, j :: 0 <= i < j < |slots| ==> slots[i] != slots[j])
    && forall sl :: sl in slots <==> sl in m && sl.nid == nid
  }

  /** With prefix-free NIDs, GetMessages of a chain returns exactly its stored messages, in the order
      of their keys: the listing that a flush of the chain takes. */
  method MessagesOfChain(ms: MessageStore, nid: string, stop: Option<nat>, ghost m: Maps, ghost nids: set<string>)
    returns (es: Option<seq<Entry>>)
    requires Represents(ms.db.data, m) && PrefixFree(nids) && NidsOf(m.messages, nids) && nid in nids
    ensures exists listing: seq<Slot> :: (
      && KeyOrdered(MessageKeyOf, listing) && IsListing(m.messages, nid, listing)
      && es == if Breaks(|listing|, stop) then None else Some(Entries(m.messages, listing)))
  {
    es := ms.GetMessages(nid, Pagination(0, 0, true), stop);
    ghost var listing := ListingOf(ms.db.data, m, nids, nid);
  }

  lemma ListingOf(data: map<string, Value>, m: Maps, nids: set<string>, nid: string) returns (listing: seq<Slot>)
    requires Represents(data, m) && PrefixFree(nids) && NidsOf(m.messages, nids) && nid in nids
    ensures KeyOrdered(MessageKeyOf, listing) && IsListing(m.messages, nid, listing)
    ensures |listing| == |Scan(data, ScanPrefix(MESSAGE, nid))|
    ensures EntriesAt(data, Scan(data, ScanPrefix(MESSAGE, nid))) == Some(Entries(m.messages, listing))
  {
    var keys := Scan(data, ScanPrefix(MESSAGE, nid));
    OwnKeysOfStores(data, m);
    listing := ExactPart(data, MESSAGE, MessageKeyOf, StoredOf, m.messages, nids, nid, keys);
    EntriesAre(data, keys, m.messages, listing);
  }

  lemma EntriesAre(data: map<string, Value>, keys: seq<string>, messages: map<Slot, Entry>, slots: seq<Slot>)
    requires |slots| == |keys|
    requires forall i :: 0 <= i < |keys| ==>
      keys[i] in data && slots[i] in messages && data[keys[i]] == StoredOf(messages[slots[i]])
    ensures (forall s :: s in keys ==> s in data) && (forall sl :: sl in slots ==> sl in messages)
    ensures EntriesAt(data, keys) == Some(Entries(messages, slots))
  {
    assert EntriesAt(data, keys).value == Entries(messages, slots);
  }

  function TxObjects(finality: map<Slot, TxObject>, slots: seq<Slot>): seq<TxObject>
    requires forall sl :: sl in slots ==> sl in finality
  {
    seq(|slots|, i requires 0 <= i < |slots| => finality[slots[i]])
  }

  /** And GetTxObjects of a chain returns exactly its tx objects. */
  method TxObjectsOfChain(fs: FinalityStore, nid: string, stop: Option<nat>, ghost m: Maps, ghost nids: set<string>)
    returns (ts: Option<seq<TxObject>>)
    requires Represents(fs.db.data, m) && PrefixFree(nids) && NidsOf(m.finality, nids) && nid in nids
    ensures exists slots: seq<Slot> :: (
      && KeyOrdered(FinalityKeyOf, slots) && SlotsOfChain(m.finality, nid, slots)
      && ts == if Breaks(|slots|, stop) then None else Some(TxObjects(m.finality, slots)))
  {
    ghost var keys := Scan(fs.db.data, ScanPrefix(FINALITY, nid));
    ts := fs.GetTxObjects(nid, Pagination(0, 0, true), stop);
    OwnKeysOfStores(fs.db.data, m);
    ghost var slots := ExactPart(fs.db.data, FINALITY, FinalityKeyOf, TxOf, m.finality, nids, nid, keys);
    TxObjectsAre(fs.db.data, keys, m.finality, slots);
    assert KeyOrdered(FinalityKeyOf, slots) && SlotsOfChain(m.finality, nid, slots);
  }

  lemma TxObjectsAre(data: map<string, Value>, keys: seq<string>, finality: map<Slot, TxObject>, slots: seq<Slot>)
    requires |slots| == |keys|
    requires forall i :: 0 <= i < |keys| ==>
      keys[i] in data && slots[i] in finality && data[keys[i]] == TxOf(finality[slots[i]])
    ensures (forall s :: s in keys ==> s in data) && (forall sl :: sl in slots ==> sl in finality)
    ensures TxObjectsAt(data, keys) == Some(TxObjects(finality, slots))
  {
    assert TxObjectsAt(data, keys).value == TxObjects(finality, slots);
  }

  // ---------- counts ----------

  lemma {:induction false} CountDistinct<T>(s: seq<T>, all: set<T>)
    requires (forall i, j :: 0 <= i < j < |s| ==> s[i] != s[j]) && forall x :: x in s <==> x in all
    ensures |s| == |all|
    decreases |s|
  {
    if s == [] {
      assert all == {};
    } else {
      assert forall x :: x in s[1..] <==> x in all - {s[0]};
      CountDistinct(s[1..], all - {s[0]});
    }
  }

  function OfChain<V>(m: map<Slot, V>, nid: string): set<Slot> { set sl | sl in m && sl.nid == nid }

  lemma TotalScan(data: map<string, Value>, m: Maps)
    requires Represents(data, m)
    ensures |Scan(data, ScanPrefix(MESSAGE, ""))| == |m.messages|
  {
    OwnKeysOfStores(data, m);
    var all := Scan(data, ScanPrefix(MESSAGE, ""));
    var slots := ScanSlots(data, MESSAGE, MessageKeyOf, StoredOf, m.messages, "", all);
    CountDistinct(slots, m.messages.Keys);
  }

  lemma ChainScan(data: map<string, Value>, m: Maps, nids: set<string>, nid: string)
    requires Represents(data, m) && PrefixFree(nids) && NidsOf(m.messages, nids) && nid in nids
    ensures |Scan(data, ScanPrefix(MESSAGE, nid))| == |OfChain(m.messages, nid)|
  {
    var listing := ListingOf(data, m, nids, nid);
    CountDistinct(listing, OfChain(m.messages, nid));
  }

  /** TotalCount is the number of stored messages, and with prefix-free NIDs TotalCountByChain is the
      number of those of the chain, when the iterators do not break. */
  method Counts(ms: MessageStore, nid: string, stop: Option<nat>, stopOfChain: Option<nat>, ghost m: Maps,
                ghost nids: set<string>)
    returns (total: Option<nat>, ofChain: Option<nat>)
    requires Represents(ms.db.data, m) && PrefixFree(nids) && NidsOf(m.messages, nids) && nid in nids
    ensures total == if Breaks(|m.messages|, stop) then None else Some(|m.messages|)
    ensures var n := |OfChain(m.messages, nid)|; ofChain == if Breaks(n, stopOfChain) then None else Some(n)
  {
    total := ms.CountByKey(ScanPrefix(MESSAGE, ""), stop);
    ofChain := ms.CountByKey(ScanPrefix(MESSAGE, nid), stopOfChain);
    TotalScan(ms.db.data, m);
    ChainScan(ms.db.data, m, nids, nid);
  }

  function SumOfChains<V>(m: map<Slot, V>, nids: seq<string>): nat
  {
    if nids == [] then 0 else |OfChain(m, nids[0])| + SumOfChains(m, nids[1..])
  }

  /** The counts of all chains add up to the total. */
  lemma {:induction false} CountsAddUp<V>(m: map<Slot, V>, nids: seq<string>)
    requires (forall i, j :: 0 <= i < j < |nids| ==> nids[i] != nids[j]) && forall sl :: sl in m ==> sl.nid in nids
    ensures SumOfChains(m, nids) == |m|
    decreases |nids|
  {
    if nids == [] {
      assert m.Keys == {};
    } else {
      var own := OfChain(m, nids[0]);
      var rest := map sl | sl in m && sl.nid != nids[0] :: m[sl];
      assert m.Keys == own + rest.Keys;
      assert |m| == |own| + |rest|;
      CountsAddUp(rest, nids[1..]);
      SumSkips(m, rest, nids[1..]);
    }
  }

  lemma {:induction false} SumSkips<V>(m: map<Slot, V>, rest: map<Slot, V>, nids: seq<string>)
    requires forall sl: Slot :: sl.nid in nids ==> (sl in m <==> sl in rest)
    ensures SumOfChains(m, nids) == SumOfChains(rest, nids)
    decreases |nids|
  {
    if nids != [] {
      assert nids[0] in nids && forall n :: n in nids[1..] ==> n in nids;
      assert OfChain(m, nids[0]) == OfChain(rest, nids[0]);
      SumSkips(m, rest, nids[1..]);
    }
  }

  // ---------- pages ----------

  /** Element `i` of a list is on page `page`. */
  predicate OnPage(i: nat, page: nat, limit: nat)
  {
    var o := Skipped(Pagination(limit, 0, false).CalculateOffset(page));
    o <= i < o + limit
  }

  /** An offset that is negative as an int skips nothing; any other one fails beyond the end, and else leaves
      the elements behind it, as many as the limit. */
  lemma WindowIs<T>(s: seq<T>, offset: nat, limit: nat)
    requires |s| < TWO64 / 2 && offset < TWO64
    ensures var w := Window(s, Pagination(limit, offset, false));
      && (offset >= TWO64 / 2 ==> w == Window(s, Pagination(limit, 0, false)))
      && (|s| < offset < TWO64 / 2 ==> w == None)
      && (offset <= |s| ==> w.Some? && w.value <= s[offset..] &&
                            |w.value| == if limit < |s| - offset then limit else |s| - offset)
  {
  }

  /** Reading a page returns exactly the elements that are on it. */
  lemma PageReads<T>(s: seq<T>, page: nat, limit: nat, i: nat)
    requires i < |s| < TWO64 / 2 && limit < TWO64 && forall j, k :: 0 <= j < k < |s| ==> s[j] != s[k]
    ensures var w := Window(s, Pagination(0, 0, false).WithPage(page, limit));
      OnPage(i, page, limit) <==> w.Some? && s[i] in w.value
  {
    var p := Pagination(0, 0, false).WithPage(page, limit);
    var o := Skipped(p.offset);
    assert p.offset == Pagination(limit, 0, false).CalculateOffset(page);
    if OnPage(i, page, limit) {
      assert Window(s, p).value[i - o] == s[i];
    } else if o <= |s| {
      var w := Window(s, p).value;
      assert forall j :: 0 <= j < |w| ==> w[j] == s[o + j];
    }
  }

  /** The second page starts at twice the limit: of all pages whose offset does not wrap around, none
      has the elements between, and one has each other element. */
  lemma PagesLeaveAHole(i: nat, limit: nat)
    requires 0 < limit < TWO64 && i < TWO64 / 2
    ensures (exists page: nat :: page * limit < TWO64 && OnPage(i, page, limit)) <==> i < limit || i >= 2 * limit
  {
    if i < limit {
      assert 0 * limit < TWO64 && OnPage(i, 0, limit);
    } else if i >= 2 * limit {
      var page := i / limit;
      PageWith(i, limit);
      assert OnPage(i, page, limit);
    } else {
      forall page: nat | page * limit < TWO64 ensures !OnPage(i, page, limit) {
        if page >= 2 { Times(page, limit); }
      }
    }
  }

  lemma Times(page: nat, limit: nat)
    requires page >= 2
    ensures page * limit >= 2 * limit
  {
  }

  lemma PageWith(i: nat, limit: nat)
    requires limit > 0 && i >= 2 * limit
    ensures var page := i / limit; page >= 2 && page * limit <= i < page * limit + limit
  {
  }

  /** The first page whose offset wraps around. */
  function WrapPage(limit: nat): nat
    requires limit > 0
  {
    (TWO64 + limit - 1) / limit
  }

  /** The hole is on the two pages whose offsets wrap around first. */
  lemma WrappedPagesHaveTheHole(i: nat, limit: nat)
    requires 2 <= limit < TWO64 / 8 && limit <= i < 2 * limit
    ensures var page := WrapPage(limit); OnPage(i, page, limit) || OnPage(i, page + 1, limit)
  {
    var page := WrapPage(limit);
    WrapOffset(limit);
    var r := page * limit - TWO64;
    assert (page + 1) * limit == TWO64 + r + limit;
    WrapsTo(page * limit, r);
    WrapsTo((page + 1) * limit, r + limit);
  }

  lemma WrapOffset(limit: nat)
    requires 2 <= limit < TWO64 / 8
    ensures var page := WrapPage(limit); 2 <= page && 0 <= page * limit - TWO64 < limit
  {
  }

  lemma WrapsTo(n: nat, r: nat)
    requires n == TWO64 + r && r < TWO64
    ensures n % TWO64 == r
  {
  }

  /** The last page that is counted has no elements: it is empty or, when the pages before it do not come
      out even, an error. */
  lemma LastPageIsEmpty<T>(s: seq<T>, limit: nat)
    requires 0 < limit < |s| && |s| + limit < TWO64 / 2
    ensures var p := Pagination(limit, 0, false); var pages := p.CalculateTotalPages(|s|);
      && pages.Some? && pages.value >= 2
      && Window(s, p.WithPage(pages.value, limit)) == if |s| % limit == 0 then Some([]) else None
  {
    var p := Pagination(limit, 0, false);
    var pages := p.CalculateTotalPages(|s|).value;
    TotalPages(|s|, limit);
    var offset := pages * limit;
    assert offset % TWO64 == offset;
    assert p.WithPage(pages, limit) == Pagination(limit, offset, false) && Skipped(offset) == offset;
    if offset == |s| { assert s[offset..|s|] == []; }
  }

  lemma TotalPages(n: nat, limit: nat)
    requires 0 < limit < n
    ensures var pages := Pagination(limit, 0, false).CalculateTotalPages(n).value;
      pages >= 2 && n <= pages * limit < n + limit && (pages * limit == n <==> n % limit == 0)
  {
    RoundUp(n / limit, n % limit, limit);
  }

  lemma RoundUp(q: nat, r: nat, limit: nat)
    requires r < limit < q * limit + r
    ensures var pages := q + if r != 0 then 1 else 0;
      pages >= 2 && q * limit + r <= pages * limit < q * limit + r + limit &&
      (pages * limit == q * limit + r <==> r == 0)
  {
    assert (q + 1) * limit == q * limit + limit;
    if q <= 1 { assert q * limit <= limit; }
  }
}
