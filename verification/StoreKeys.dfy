/** The keys of the three stores (relayer/store/common.go and the three GetKey callers). A byte is
    a char; the database orders keys by their bytes. */
module StoreKeys {
  import opened Strings
  import opened Types

  const MESSAGE := "message"
  const BLOCK := "block"
  const FINALITY := "finality"

  /** The %d verb. */
  function Decimal(n: nat): (d: string)
    ensures |d| >= 1 && forall i :: 0 <= i < |d| ==> '0' <= d[i] <= '9'
  {
    var digit := ['0' + (n % 10) as char];
    if n < 10 then digit else Decimal(n / 10) + digit
  }

  function Undecimal(d: string): int
  {
    if d == "" then 0 else 10 * Undecimal(d[..|d| - 1]) + d[|d| - 1] as int - '0' as int
  }

  lemma {:induction false} DecimalRoundTrip(n: nat)
    ensures Undecimal(Decimal(n)) == n
    decreases n
  {
    var d := Decimal(n);
    if n >= 10 {
      DecimalRoundTrip(n / 10);
      assert d[..|d| - 1] == Decimal(n / 10);
    } else {
      assert d[..|d| - 1] == "";
    }
  }

  function SlotKey(prefix: string, sl: Slot): string { Join([prefix, sl.nid, Decimal(sl.sn)], '-') }

  function BlockKey(nid: string): string { Join([BLOCK, nid], '-') }

  lemma SlotKeyIs(prefix: string, sl: Slot)
    ensures SlotKey(prefix, sl) == prefix + "-" + sl.nid + "-" + Decimal(sl.sn)
  {
    var parts := [prefix, sl.nid, Decimal(sl.sn)];
    assert parts[1..] == [sl.nid, Decimal(sl.sn)] && parts[1..][1..] == [Decimal(sl.sn)];
    assert Join(parts[1..], '-') == sl.nid + "-" + Join([Decimal(sl.sn)], '-');
    assert prefix + "-" + (sl.nid + "-" + Decimal(sl.sn)) == prefix + "-" + sl.nid + "-" + Decimal(sl.sn);
  }

  lemma BlockKeyIs(nid: string)
    ensures BlockKey(nid) == BLOCK + "-" + nid
  {
    assert [BLOCK, nid][1..] == [nid] && Join([nid], '-') == nid;
  }

  /** A text splits at its last dash in one way, whatever dashes stand before. */
  lemma LastDash(a: string, d: string, b: string, e: string)
    requires a + "-" + d == b + "-" + e && '-' !in d && '-' !in e
    ensures a == b && d == e
  {
    var s := a + "-" + d;
    assert s[|a|] == '-' && s[|b|] == '-';
    assert forall i :: |a| < i < |s| ==> s[i] == d[i - |a| - 1];
    assert forall i :: |b| < i < |s| ==> s[i] == e[i - |b| - 1];
    assert |a| == |b|;
    assert a == s[..|a|] && b == s[..|b|] && d == s[|a| + 1..] && e == s[|b| + 1..];
  }

  /** Different messages, and different tx objects, have different keys, for any NIDs. */
  lemma SlotKeyInjective(prefix: string, x: Slot, y: Slot)
    ensures SlotKey(prefix, x) == SlotKey(prefix, y) <==> x == y
  {
    if SlotKey(prefix, x) == SlotKey(prefix, y) {
      SlotKeyIs(prefix, x);
      SlotKeyIs(prefix, y);
      var a, b := prefix + "-" + x.nid, prefix + "-" + y.nid;
      LastDash(a, Decimal(x.sn), b, Decimal(y.sn));
      assert x.nid == a[|prefix| + 1..] && y.nid == b[|prefix| + 1..];
      DecimalRoundTrip(x.sn);
      DecimalRoundTrip(y.sn);
    }
  }

  lemma BlockKeyInjective(x: string, y: string)
    ensures BlockKey(x) == BlockKey(y) <==> x == y
  {
    if BlockKey(x) == BlockKey(y) {
      BlockKeyIs(x);
      BlockKeyIs(y);
      assert x == BlockKey(x)[6..] && y == BlockKey(y)[6..];
    }
  }

  /** The first byte tells the three stores apart. */
  lemma KeysDisjoint(x: Slot, y: Slot, nid: string)
    ensures SlotKey(MESSAGE, x) != SlotKey(FINALITY, y) && SlotKey(MESSAGE, x) != BlockKey(nid)
    ensures SlotKey(FINALITY, y) != BlockKey(nid)
  {
    SlotKeyIs(MESSAGE, x);
    SlotKeyIs(FINALITY, y);
    BlockKeyIs(nid);
    assert SlotKey(MESSAGE, x)[0] == 'm' && SlotKey(FINALITY, y)[0] == 'f' && BlockKey(nid)[0] == 'b';
  }

  // ---------- prefixes ----------

  predicate HasPrefix(key: string, prefix: string) { prefix <= key }

  /** The prefix of a scan: no trailing dash. */
  function ScanPrefix(prefix: string, nid: string): string {
    if nid == "" then Join([prefix], '-') else Join([prefix, nid], '-')
  }

  lemma ScanPrefixIs(prefix: string, nid: string)
    ensures ScanPrefix(prefix, nid) == if nid == "" then prefix else prefix + "-" + nid
  {
    assert [prefix, nid][1..] == [nid] && Join([nid], '-') == nid && Join([prefix], '-') == prefix;
  }

  /** A scan for a chain meets exactly the keys whose chain and number, with the dash between, begin with its NID. */
  lemma ScanMeets(prefix: string, nid: string, sl: Slot)
    ensures HasPrefix(SlotKey(prefix, sl), ScanPrefix(prefix, nid)) <==> nid <= sl.nid + "-" + Decimal(sl.sn)
  {
    SlotKeyIs(prefix, sl);
    ScanPrefixIs(prefix, nid);
    var tail := sl.nid + "-" + Decimal(sl.sn);
    assert SlotKey(prefix, sl) == prefix + "-" + tail;
    if nid != "" {
      if nid <= tail { assert prefix + "-" + nid <= prefix + "-" + tail; }
      if prefix + "-" + nid <= prefix + "-" + tail {
        assert nid == (prefix + "-" + nid)[|prefix| + 1..];
        assert tail == (prefix + "-" + tail)[|prefix| + 1..];
      }
    }
  }

  /** No NID of the set begins with another one. */
  predicate PrefixFree(nids: set<string>)
  {
    forall a, b :: a in nids && b in nids && a <= b ==> a == b
  }

  lemma PrefixFreeMeets(nids: set<string>, nid: string, sl: Slot)
    requires PrefixFree(nids) && nid in nids && sl.nid in nids
    ensures nid <= sl.nid + "-" + Decimal(sl.sn) <==> nid == sl.nid
  {
    var tail := sl.nid + "-" + Decimal(sl.sn);
    assert sl.nid <= tail;
    if nid <= tail { OneBeginsTheOther(nid, sl.nid, tail); }
  }

  lemma OneBeginsTheOther(a: string, b: string, s: string)
    requires a <= s && b <= s
    ensures a <= b || b <= a
  {
    assert a == s[..|a|] && b == s[..|b|];
  }

  /** Without that, scans meet other chains, and dashes alone do not help: a scan for the NID that is
      the name of a chain, a dash and a number meets that message of that chain. */
  lemma ScanMeetsTooMuch(prefix: string, nid: string, sn: nat)
    ensures var other := nid + "-" + Decimal(sn);
      other != nid && HasPrefix(SlotKey(prefix, Slot(nid, sn)), ScanPrefix(prefix, other))
  {
    ScanMeets(prefix, nid + "-" + Decimal(sn), Slot(nid, sn));
  }
}
