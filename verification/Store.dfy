/** The three stores on one database (relayer/store), and what their users may take them for: three
    maps that know nothing of each other. */
module Store {
  import opened Types
  import opened StoreKeys

  /** What the codec writes: the three kinds of value. */
  datatype Value = Stored(entry: Entry) | Tx(tx: TxObject) | Height(height: nat)

  datatype Outcome = Failure | Done | Message(entry: Entry) | TxFound(tx: TxObject) | HeightFound(height: nat)

  class LevelDb {
    var data: map<string, Value>

    constructor ()
      ensures data == map[]
    {
      data := map[];
    }

    method GetByKey(key: string, readable: bool) returns (v: Option<Value>)
      ensures v == if readable && key in data then Some(data[key]) else None
    {
      v := if readable && key in data then Some(data[key]) else None;
    }

    method SetByKey(key: string, value: Value, writable: bool)
      modifies this
      ensures data == if writable then old(data)[key := value] else old(data)
    {
      if writable { data := data[key := value]; }
    }

    method DeleteByKey(key: string, writable: bool)
      modifies this
      ensures data == if writable then old(data) - {key} else old(data)
    {
      if writable { data := data - {key}; }
    }

    method ClearStore(writable: bool)
      modifies this
      ensures data == if writable then map[] else old(data)
    {
      if writable { data := map[]; }
    }

    /** The iterator of the database: the keys with a prefix, in the order of their bytes. */
    method NewIterator(prefix: string) returns (keys: seq<string>)
      ensures keys == Scan(data, prefix)
    {
      keys := [];
      var todo := data.Keys;
      while todo != {}
        invariant todo <= data.Keys && InOrder(keys)
        invariant forall k :: k in keys <==> k in data && k !in todo && HasPrefix(k, prefix)
      {
        var k :| k in todo;
        if HasPrefix(k, prefix) { keys := InsertKey(keys, k); }
        todo := todo - {k};
      }
      ScanUnique(keys, Scan(data, prefix));
    }
  }

  // ---------- the order of the keys ----------

  predicate Before(a: string, b: string)
  {
    if a == "" then b != "" else b != "" && (a[0] < b[0] || (a[0] == b[0] && Before(a[1..], b[1..])))
  }

  lemma {:induction false} BeforeTotal(a: string, b: string)
    ensures Before(a, b) || Before(b, a) || a == b
    ensures !(Before(a, b) && Before(b, a)) && !Before(a, a)
    decreases |a|
  {
    if a != "" {
      BeforeTotal(a[1..], a[1..]);
      if b != "" {
        BeforeTotal(a[1..], b[1..]);
        if a[0] == b[0] && a[1..] == b[1..] { assert a == [a[0]] + a[1..] == b; }
      }
    }
  }

  /** The first byte that differs is number `i`, and is less in `a`. */
  predicate LessAt(a: string, b: string, i: nat)
  {
    i < |a| && i < |b| && a[i] < b[i] && forall j :: 0 <= j < i ==> a[j] == b[j]
  }

  lemma {:induction false} BeforeByPrefix(a: string, b: string)
    requires a < b
    ensures Before(a, b)
    decreases |a|
  {
    if a != "" { BeforeByPrefix(a[1..], b[1..]); }
  }

  lemma {:induction false} BeforeByByte(a: string, b: string, i: nat)
    requires LessAt(a, b, i)
    ensures Before(a, b)
    decreases i
  {
    if i > 0 { BeforeByByte(a[1..], b[1..], i - 1); }
  }

  /** The order of bytes: a proper prefix comes first, and otherwise the first byte that differs decides. */
  lemma {:induction false} BeforeIs(a: string, b: string)
    ensures Before(a, b) <==> a < b || exists i: nat :: LessAt(a, b, i)
    decreases |a|
  {
    if a < b { BeforeByPrefix(a, b); }
    if i: nat :| LessAt(a, b, i) { BeforeByByte(a, b, i); }
    if Before(a, b) && a != "" {
      if a[0] < b[0] {
        assert LessAt(a, b, 0);
      } else {
        BeforeIs(a[1..], b[1..]);
        if i: nat :| LessAt(a[1..], b[1..], i) {
          assert LessAt(a, b, i + 1);
        } else {
          assert a == [a[0]] + a[1..] && b == [b[0]] + b[1..];
        }
      }
    }
  }

  lemma {:induction false} BeforeTransitive(a: string, b: string, c: string)
    requires Before(a, b) && Before(b, c)
    ensures Before(a, c)
    decreases |a|
  {
    if a != "" && a[0] == b[0] && b[0] == c[0] { BeforeTransitive(a[1..], b[1..], c[1..]); }
  }

  ghost predicate InOrder(keys: seq<string>) { forall i, j :: 0 <= i < j < |keys| ==> Before(keys[i], keys[j]) }

  function InsertKey(keys: seq<string>, k: string): (r: seq<string>)
    requires InOrder(keys) && k !in keys
    ensures InOrder(r) && forall x :: x in r <==> x in keys || x == k
  {
    if keys == [] then [k]
    else if Before(k, keys[0]) then
      FrontIsFirst(keys, k);
      [k] + keys
    else
      BeforeTotal(k, keys[0]);
      assert forall x :: x in InsertKey(keys[1..], k) ==> Before(keys[0], x);
      [keys[0]] + InsertKey(keys[1..], k)
  }

  lemma FrontIsFirst(keys: seq<string>, k: string)
    requires keys != [] && InOrder(keys) && Before(k, keys[0])
    ensures forall i :: 0 <= i < |keys| ==> Before(k, keys[i])
  {
    forall i | 0 < i < |keys| ensures Before(k, keys[i]) { BeforeTransitive(k, keys[0], keys[i]); }
  }

  ghost predicate IsScan(data: map<string, Value>, prefix: string, keys: seq<string>)
  {
    InOrder(keys) && forall k :: k in keys <==> k in data && HasPrefix(k, prefix)
  }

  ghost function InKeyOrder(keys: set<string>): (r: seq<string>)
    ensures InOrder(r) && forall k :: k in r <==> k in keys
  {
    if keys == {} then []
    else
      var k :| k in keys;
      InsertKey(InKeyOrder(keys - {k}), k)
  }

  /** The scan for a prefix. */
  ghost function Scan(data: map<string, Value>, prefix: string): (keys: seq<string>)
    ensures IsScan(data, prefix, keys)
  {
    InKeyOrder(set k | k in data && HasPrefix(k, prefix))
  }

  /** There is only one scan. */
  lemma {:induction false} ScanUnique(keys: seq<string>, other: seq<string>)
    requires InOrder(keys) && InOrder(other) && forall k :: k in keys <==> k in other
    ensures keys == other
    decreases |keys|
  {
    EmptyTogether(keys, other);
    if keys != [] {
      assert keys[0] in other;
      var i :| 0 <= i < |other| && other[i] == keys[0];
      assert other[0] in keys;
      var j :| 0 <= j < |keys| && keys[j] == other[0];
      BeforeTotal(keys[0], other[0]);
      assert keys[0] == other[0];
      forall k ensures k in keys[1..] <==> k in other[1..] {
        BeforeTotal(keys[0], keys[0]);
        assert k in keys[1..] <==> k in keys && k != keys[0] by { TailWithoutHead(keys, k); }
        assert k in other[1..] <==> k in other && k != other[0] by { TailWithoutHead(other, k); }
      }
      ScanUnique(keys[1..], other[1..]);
      assert keys == [keys[0]] + keys[1..] && other == [other[0]] + other[1..];
    }
  }

  lemma EmptyTogether(keys: seq<string>, other: seq<string>)
    requires forall k :: k in keys <==> k in other
    ensures keys == [] <==> other == []
  {
    if keys != [] { assert keys[0] in keys; }
    if other != [] { assert other[0] in other; }
  }

  lemma TailWithoutHead(keys: seq<string>, k: string)
    requires keys != [] && InOrder(keys)
    ensures k in keys[1..] <==> k in keys && k != keys[0]
  {
    BeforeTotal(keys[0], keys[0]);
    if k in keys[1..] {
      var i :| 0 <= i < |keys[1..]| && keys[1..][i] == k;
      assert keys[i + 1] == k && Before(keys[0], keys[i + 1]);
    }
    if k in keys && k != keys[0] {
      var i :| 0 <= i < |keys| && keys[i] == k;
      assert keys[1..][i - 1] == k;
    }
  }

  // ---------- the stores ----------

  datatype Op =
    | StoreMessage(e: Entry)
    | GetMessage(k: MessageKey)
    | DeleteMessage(k: MessageKey)
    | StoreTxObject(t: TxObject)
    | GetTxObject(k: MessageKey)
    | DeleteTxObject(k: MessageKey)
    | StoreBlock(height: nat, nid: string)
    | GetLastStoredBlock(nid: string)
    | Clear

  /** What one operation does to the database, and what it returns; `ok` says if the database answers. */
  function OnDb(data: map<string, Value>, op: Op, ok: bool): (map<string, Value>, Outcome)
  {
    if !ok then (data, Failure)
    else
      match op
      case StoreMessage(e) => (data[SlotKey(MESSAGE, SrcSlot(e.msg.Key())) := Stored(e)], Done)
      case GetMessage(k) =>
        var key := SlotKey(MESSAGE, SrcSlot(k));
        (data, if key in data && data[key].Stored? then Outcome.Message(data[key].entry) else Failure)
      case DeleteMessage(k) => (data - {SlotKey(MESSAGE, SrcSlot(k))}, Done)
      case StoreTxObject(t) => (data[SlotKey(FINALITY, DstSlot(t.key)) := Tx(t)], Done)
      case GetTxObject(k) =>
        var key := SlotKey(FINALITY, DstSlot(k));
        (data, if key in data && data[key].Tx? then TxFound(data[key].tx) else Failure)
      case DeleteTxObject(k) => (data - {SlotKey(FINALITY, DstSlot(k))}, Done)
      case StoreBlock(height, nid) => (data[BlockKey(nid) := Height(height)], Done)
      case GetLastStoredBlock(nid) =>
        var key := BlockKey(nid);
        (data, if key in data && data[key].Height? then HeightFound(data[key].height) else Failure)
      case Clear => (map[], Done)
  }

  class MessageStore {
    const db: LevelDb

    constructor (db: LevelDb)
      ensures this.db == db
    {
      this.db := db;
    }

    method StoreMessage(e: Entry, ok: bool) returns (r: Outcome)
      modifies db
      ensures (db.data, r) == OnDb(old(db.data), Op.StoreMessage(e), ok)
    {
      db.SetByKey(SlotKey(MESSAGE, SrcSlot(e.msg.Key())), Stored(e), ok);
      r := if ok then Done else Failure;
    }

    method GetMessage(k: MessageKey, ok: bool) returns (r: Outcome)
      ensures (db.data, r) == OnDb(db.data, Op.GetMessage(k), ok)
    {
      var v := db.GetByKey(SlotKey(MESSAGE, SrcSlot(k)), ok);
      r := if v.Some? && v.value.Stored? then Outcome.Message(v.value.entry) else Failure;
    }

    method DeleteMessage(k: MessageKey, ok: bool) returns (r: Outcome)
      modifies db
      ensures (db.data, r) == OnDb(old(db.data), Op.DeleteMessage(k), ok)
    {
      db.DeleteByKey(SlotKey(MESSAGE, SrcSlot(k)), ok);
      r := if ok then Done else Failure;
    }

    method GetMessages(nid: string, p: Pagination, stop: Option<nat>) returns (r: Option<seq<Entry>>)
      ensures r == match PageOf(Scan(db.data, ScanPrefix(MESSAGE, nid)), p, stop)
                   case None => None
                   case Some(page) => EntriesAt(db.data, page)
    {
      var keys := db.NewIterator(ScanPrefix(MESSAGE, nid));
      var page := ReadPage(keys, p, stop);
      if page.None? { return None; }
      var es: seq<Entry> := [];
      for i := 0 to |page.value|
        invariant |es| == i && forall j :: 0 <= j < i ==> db.data[page.value[j]] == Stored(es[j])
      {
        assert page.value[i] in keys;
        var v := db.data[page.value[i]];
        if !v.Stored? { return None; }
        es := es + [v.entry];
      }
      assert es == EntriesAt(db.data, page.value).value;
      r := Some(es);
    }

    method CountByKey(prefix: string, stop: Option<nat>) returns (count: Option<nat>)
      ensures var n := |Scan(db.data, prefix)|; count == if Breaks(n, stop) then None else Some(n)
    {
      var keys := db.NewIterator(prefix);
      var n := 0;
      while n < |keys|
        invariant n <= |keys| && (stop.Some? ==> n <= stop.value)
      {
        if stop == Some(n) { return None; }
        n := n + 1;
      }
      if stop == Some(n) { return None; }
      count := Some(n);
    }
  }

  class FinalityStore {
    const db: LevelDb

    constructor (db: LevelDb)
      ensures this.db == db
    {
      this.db := db;
    }

    method StoreTxObject(t: TxObject, ok: bool) returns (r: Outcome)
      modifies db
      ensures (db.data, r) == OnDb(old(db.data), Op.StoreTxObject(t), ok)
    {
      db.SetByKey(SlotKey(FINALITY, DstSlot(t.key)), Tx(t), ok);
      r := if ok then Done else Failure;
    }

    method GetTxObject(k: MessageKey, ok: bool) returns (r: Outcome)
      ensures (db.data, r) == OnDb(db.data, Op.GetTxObject(k), ok)
    {
      var v := db.GetByKey(SlotKey(FINALITY, DstSlot(k)), ok);
      r := if v.Some? && v.value.Tx? then TxFound(v.value.tx) else Failure;
    }

    method DeleteTxObject(k: MessageKey, ok: bool) returns (r: Outcome)
      modifies db
      ensures (db.data, r) == OnDb(old(db.data), Op.DeleteTxObject(k), ok)
    {
      db.DeleteByKey(SlotKey(FINALITY, DstSlot(k)), ok);
      r := if ok then Done else Failure;
    }

    method GetTxObjects(nid: string, p: Pagination, stop: Option<nat>) returns (r: Option<seq<TxObject>>)
      ensures r == match PageOf(Scan(db.data, ScanPrefix(FINALITY, nid)), p, stop)
                   case None => None
                   case Some(page) => TxObjectsAt(db.data, page)
    {
      var keys := db.NewIterator(ScanPrefix(FINALITY, nid));
      var page := ReadPage(keys, p, stop);
      if page.None? { return None; }
      var ts: seq<TxObject> := [];
      for i := 0 to |page.value|
        invariant |ts| == i && forall j :: 0 <= j < i ==> db.data[page.value[j]] == Tx(ts[j])
      {
        assert page.value[i] in keys;
        var v := db.data[page.value[i]];
        if !v.Tx? { return None; }
        ts := ts + [v.tx];
      }
      assert ts == TxObjectsAt(db.data, page.value).value;
      r := Some(ts);
    }
  }

  class BlockStore {
    const db: LevelDb

    constructor (db: LevelDb)
      ensures this.db == db
    {
      this.db := db;
    }

    method StoreBlock(height: nat, nid: string, ok: bool) returns (r: Outcome)
      modifies db
      ensures (db.data, r) == OnDb(old(db.data), Op.StoreBlock(height, nid), ok)
    {
      db.SetByKey(BlockKey(nid), Height(height), ok);
      r := if ok then Done else Failure;
    }

    method GetLastStoredBlock(nid: string, ok: bool) returns (r: Outcome)
      ensures (db.data, r) == OnDb(db.data, Op.GetLastStoredBlock(nid), ok)
    {
      var v := db.GetByKey(BlockKey(nid), ok);
      r := if v.Some? && v.value.Height? then HeightFound(v.value.height) else Failure;
    }
  }

  // ---------- pages ----------

  /** Limit and Offset are 64-bit uints. */
  datatype Pagination = Pagination(limit: nat, offset: nat, all: bool) {
    predicate Valid() { limit < TWO64 && offset < TWO64 }

    function CalculateOffset(page: nat): nat { if page <= 1 then 0 else page * limit % TWO64 }

    /** Nothing where the source divides by zero. */
    function CalculateTotalPages(total: nat): Option<nat>
    {
      if limit == 0 then None else Some(total / limit + if total % limit != 0 then 1 else 0)
    }

    function WithPage(page: nat, limit: nat): Pagination
    {
      var p := this.(limit := limit);
      p.(offset := p.CalculateOffset(page))
    }
  }

  /** int(p.Offset) is negative from 2^63 on, and then nothing is skipped. */
  function Skipped(offset: nat): nat { if offset < TWO64 / 2 then offset else 0 }

  function Window<T>(s: seq<T>, p: Pagination): Option<seq<T>>
  {
    var o := Skipped(p.offset);
    if p.all then Some(s) else if o > |s| then None else Some(s[o..if o + p.limit < |s| then o + p.limit else |s|])
  }

  /** An iterator over `n` keys that stops with an error after `stop` of them: it shows when the caller
      asks for one more. */
  predicate Breaks(n: nat, stop: Option<nat>) { stop.Some? && stop.value <= n }

  /** A page is read if the loops are done before the iterator breaks. */
  function PageOf<T>(s: seq<T>, p: Pagination, stop: Option<nat>): Option<seq<T>>
  {
    if Breaks(|s|, stop) && (p.all || stop.value < Skipped(p.offset) + p.limit) then None else Window(s, p)
  }

  /** The loop over all of the iterator. */
  method ReadAll(keys: seq<string>, stop: Option<nat>) returns (page: Option<seq<string>>)
    ensures page == if Breaks(|keys|, stop) then None else Some(keys)
  {
    var found: seq<string> := [];
    while stop != Some(|found|) && |found| < |keys|
      invariant |found| <= |keys| && found == keys[..|found|] && (stop.Some? ==> |found| <= stop.value)
      decreases |keys| - |found|
    {
      found := found + [keys[|found|]];
    }
    if stop == Some(|found|) { return None; }
    assert found == keys;
    page := Some(found);
  }

  /** The loop that reads up to `limit` keys, after `from` of them. */
  method ReadSome(keys: seq<string>, from: nat, limit: nat, stop: Option<nat>) returns (page: Option<seq<string>>)
    requires from <= |keys| && (stop.Some? ==> from <= stop.value)
    ensures page == if Breaks(|keys|, stop) && stop.value < from + limit then None
                    else Some(keys[from..if from + limit < |keys| then from + limit else |keys|])
  {
    var found: seq<string> := [];
    for j := 0 to limit
      invariant |found| == j <= |keys| - from && found == keys[from..from + j]
      invariant stop.Some? ==> from + j <= stop.value
    {
      if stop == Some(from + j) { return None; }
      if from + j == |keys| { break; }
      found := found + [keys[from + j]];
    }
    page := Some(found);
  }

  /** The two loops over the iterator with an offset and a limit, or the loop over all of it. */
  method ReadPage(keys: seq<string>, p: Pagination, stop: Option<nat>) returns (page: Option<seq<string>>)
    ensures page == PageOf(keys, p, stop)
  {
    if p.all {
      page := ReadAll(keys, stop);
      return;
    }
    var next := 0;
    while next < Skipped(p.offset)
      invariant next <= Skipped(p.offset) && next <= |keys| && (stop.Some? ==> next <= stop.value)
    {
      if stop == Some(next) || next == |keys| { return None; }
      next := next + 1;
    }
    page := ReadSome(keys, next, p.limit, stop);
  }

  function EntriesAt(data: map<string, Value>, keys: seq<string>): Option<seq<Entry>>
    requires forall k :: k in keys ==> k in data
  {
    if forall k :: k in keys ==> data[k].Stored? then
      Some(seq(|keys|, i requires 0 <= i < |keys| => data[keys[i]].entry))
    else None
  }

  function TxObjectsAt(data: map<string, Value>, keys: seq<string>): Option<seq<TxObject>>
    requires forall k :: k in keys ==> k in data
  {
    if forall k :: k in keys ==> data[k].Tx? then
      Some(seq(|keys|, i requires 0 <= i < |keys| => data[keys[i]].tx))
    else None
  }
}
