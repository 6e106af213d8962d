/** The database behaves as three maps, and scans are exact when NIDs are prefix-free. */
module StoreRefinement {
  import opened Types
  import opened StoreKeys
  import opened Store

  /** The message store by source and number, the finality store by destination and number, and the
      block store by chain: none of them sees the others. */
  datatype Maps = Maps(messages: map<Slot, Entry>, finality: map<Slot, TxObject>, blocks: map<string, nat>)

  function OnMaps(m: Maps, op: Op, ok: bool): (Maps, Outcome)
  {
    if !ok then (m, Failure)
    else
      match op
      case StoreMessage(e) => (m.(messages := m.messages[SrcSlot(e.msg.Key()) := e]), Done)
      case GetMessage(k) => (m, if SrcSlot(k) in m.messages then Outcome.Message(m.messages[SrcSlot(k)]) else Failure)
      case DeleteMessage(k) => (m.(messages := m.messages - {SrcSlot(k)}), Done)
      case StoreTxObject(t) => (m.(finality := m.finality[DstSlot(t.key) := t]), Done)
      case GetTxObject(k) => (m, if DstSlot(k) in m.finality then TxFound(m.finality[DstSlot(k)]) else Failure)
      case DeleteTxObject(k) => (m.(finality := m.finality - {DstSlot(k)}), Done)
      case StoreBlock(height, nid) => (m.(blocks := m.blocks[nid := height]), Done)
      case GetLastStoredBlock(nid) => (m, if nid in m.blocks then HeightFound(m.blocks[nid]) else Failure)
      case Clear => (Maps(map[], map[], map[]), Done)
  }

  /** A part of the database: the keys of one kind, and what is under them. */
  ghost predicate Holds<K(!new), V>(data: map<string, Value>, key: K -> string, value: V -> Value, m: map<K, V>)
  {
    forall k: K :: (key(k) in data <==> k in m) && (k in m ==> data[key(k)] == value(m[k]))
  }

  ghost predicate Injective<K(!new)>(key: K -> string) { forall a: K, b: K :: key(a) == key(b) ==> a == b }

  ghost predicate Avoids<K(!new)>(key: K -> string, s: string) { forall k: K :: key(k) != s }

  ghost predicate Names<K(!new)>(key: K -> string, s: string) { exists k: K :: key(k) == s }

  ghost predicate SameBut(data: map<string, Value>, data': map<string, Value>, key: string)
  {
    forall s :: s != key ==> (s in data' <==> s in data) && (s in data ==> data'[s] == data[s])
  }

  lemma HoldsStill<K(!new), V>(data: map<string, Value>, data': map<string, Value>, changed: string, key: K -> string,
                     value: V -> Value, m: map<K, V>)
    requires Holds(data, key, value, m) && SameBut(data, data', changed) && Avoids(key, changed)
    ensures Holds(data', key, value, m)
  {
  }

  lemma HoldsPut<K(!new), V>(data: map<string, Value>, key: K -> string, value: V -> Value, m: map<K, V>, k: K, v: V)
    requires Holds(data, key, value, m) && Injective(key)
    ensures Holds(data[key(k) := value(v)], key, value, m[k := v])
  {
  }

  lemma HoldsDelete<K(!new), V>(data: map<string, Value>, key: K -> string, value: V -> Value, m: map<K, V>, k: K)
    requires Holds(data, key, value, m) && Injective(key)
    ensures Holds(data - {key(k)}, key, value, m - {k})
  {
  }

  ghost predicate AllNamed<A(!new), B(!new), C(!new)>(
      data: map<string, Value>, a: A -> string, b: B -> string, c: C -> string)
  {
    forall s :: s in data ==> Names(a, s) || Names(b, s) || Names(c, s)
  }

  /** Three kinds of keys, and nothing else. */
  ghost predicate Parts<A(!new), B(!new), C(!new), U, V, W>(data: map<string, Value>,
      a: A -> string, u: U -> Value, ma: map<A, U>, b: B -> string, v: V -> Value, mb: map<B, V>, c: C -> string,
      w: W -> Value, mc: map<C, W>)
  {
    Holds(data, a, u, ma) && Holds(data, b, v, mb) && Holds(data, c, w, mc) && AllNamed(data, a, b, c)
  }

  lemma PartsPut<A(!new), B(!new), C(!new), U, V, W>(data: map<string, Value>,
      a: A -> string, u: U -> Value, ma: map<A, U>, b: B -> string, v: V -> Value, mb: map<B, V>, c: C -> string,
      w: W -> Value, mc: map<C, W>,
      k: A, x: U)
    requires Parts(data, a, u, ma, b, v, mb, c, w, mc) && Injective(a) && Avoids(b, a(k)) && Avoids(c, a(k))
    ensures Parts(data[a(k) := u(x)], a, u, ma[k := x], b, v, mb, c, w, mc)
  {
    var data' := data[a(k) := u(x)];
    HoldsPut(data, a, u, ma, k, x);
    HoldsStill(data, data', a(k), b, v, mb);
    HoldsStill(data, data', a(k), c, w, mc);
    assert Names(a, a(k));
  }

  lemma PartsDelete<A(!new), B(!new), C(!new), U, V, W>(data: map<string, Value>,
      a: A -> string, u: U -> Value, ma: map<A, U>, b: B -> string, v: V -> Value, mb: map<B, V>, c: C -> string,
      w: W -> Value, mc: map<C, W>,
      k: A)
    requires Parts(data, a, u, ma, b, v, mb, c, w, mc) && Injective(a) && Avoids(b, a(k)) && Avoids(c, a(k))
    ensures Parts(data - {a(k)}, a, u, ma - {k}, b, v, mb, c, w, mc)
  {
    var data' := data - {a(k)};
    HoldsDelete(data, a, u, ma, k);
    HoldsStill(data, data', a(k), b, v, mb);
    HoldsStill(data, data', a(k), c, w, mc);
  }

  function MessageKeyOf(sl: Slot): string { SlotKey(MESSAGE, sl) }

  function FinalityKeyOf(sl: Slot): string { SlotKey(FINALITY, sl) }

  function StoredOf(e: Entry): Value { Stored(e) }

  function TxOf(t: TxObject): Value { Tx(t) }

  function HeightOf(h: nat): Value { Height(h) }

  lemma KeysInjective()
    ensures Injective(MessageKeyOf) && Injective(FinalityKeyOf) && Injective(BlockKey)
  {
    forall a: Slot, b: Slot ensures MessageKeyOf(a) == MessageKeyOf(b) ==> a == b { SlotKeyInjective(MESSAGE, a, b); }
    forall a: Slot, b: Slot ensures FinalityKeyOf(a) == FinalityKeyOf(b) ==> a == b {
      SlotKeyInjective(FINALITY, a, b);
    }
    forall a: string, b: string ensures BlockKey(a) == BlockKey(b) ==> a == b { BlockKeyInjective(a, b); }
  }

  lemma KeysAvoid(sl: Slot, nid: string)
    ensures Avoids(FinalityKeyOf, MessageKeyOf(sl)) && Avoids(BlockKey, MessageKeyOf(sl))
    ensures Avoids(MessageKeyOf, FinalityKeyOf(sl)) && Avoids(BlockKey, FinalityKeyOf(sl))
    ensures Avoids(MessageKeyOf, BlockKey(nid)) && Avoids(FinalityKeyOf, BlockKey(nid))
  {
    forall x: Slot ensures FinalityKeyOf(x) != MessageKeyOf(sl) { KeysDisjoint(sl, x, ""); }
    forall x: Slot ensures MessageKeyOf(x) != FinalityKeyOf(sl) { KeysDisjoint(x, sl, ""); }
    forall x: string ensures BlockKey(x) != MessageKeyOf(sl) && BlockKey(x) != FinalityKeyOf(sl) {
      KeysDisjoint(sl, sl, x);
    }
    forall x: Slot ensures MessageKeyOf(x) != BlockKey(nid) && FinalityKeyOf(x) != BlockKey(nid) {
      KeysDisjoint(x, x, nid);
    }
  }

  /** The database holds the three maps, and nothing else. */
  ghost predicate Represents(data: map<string, Value>, m: Maps)
  {
    Parts(data, MessageKeyOf, StoredOf, m.messages, FinalityKeyOf, TxOf, m.finality, BlockKey, HeightOf, m.blocks)
  }

  lemma MessagePut(data: map<string, Value>, m: Maps, sl: Slot, e: Entry)
    requires Represents(data, m)
    ensures Represents(data[MessageKeyOf(sl) := Stored(e)], m.(messages := m.messages[sl := e]))
  {
    KeysInjective();
    KeysAvoid(sl, "");
    PartsPut(data, MessageKeyOf, StoredOf, m.messages, FinalityKeyOf, TxOf, m.finality, BlockKey, HeightOf, m.blocks,
      sl, e);
  }

  lemma MessageDelete(data: map<string, Value>, m: Maps, sl: Slot)
    requires Represents(data, m)
    ensures Represents(data - {MessageKeyOf(sl)}, m.(messages := m.messages - {sl}))
  {
    KeysInjective();
    KeysAvoid(sl, "");
    PartsDelete(data, MessageKeyOf, StoredOf, m.messages, FinalityKeyOf, TxOf, m.finality, BlockKey, HeightOf, m.blocks,
      sl);
  }

  lemma TxPut(data: map<string, Value>, m: Maps, sl: Slot, t: TxObject)
    requires Represents(data, m)
    ensures Represents(data[FinalityKeyOf(sl) := Tx(t)], m.(finality := m.finality[sl := t]))
  {
    KeysInjective();
    KeysAvoid(sl, "");
    PartsPut(data, FinalityKeyOf, TxOf, m.finality, MessageKeyOf, StoredOf, m.messages, BlockKey, HeightOf, m.blocks,
      sl, t);
  }

  lemma TxDelete(data: map<string, Value>, m: Maps, sl: Slot)
    requires Represents(data, m)
    ensures Represents(data - {FinalityKeyOf(sl)}, m.(finality := m.finality - {sl}))
  {
    KeysInjective();
    KeysAvoid(sl, "");
    PartsDelete(data, FinalityKeyOf, TxOf, m.finality, MessageKeyOf, StoredOf, m.messages, BlockKey, HeightOf, m.blocks,
      sl);
  }

  lemma BlockPut(data: map<string, Value>, m: Maps, nid: string, height: nat)
    requires Represents(data, m)
    ensures Represents(data[BlockKey(nid) := Height(height)], m.(blocks := m.blocks[nid := height]))
  {
    KeysInjective();
    KeysAvoid(Slot("", 0), nid);
    PartsPut(data, BlockKey, HeightOf, m.blocks, MessageKeyOf, StoredOf, m.messages, FinalityKeyOf, TxOf, m.finality,
      nid, height);
  }

  // ---------- the refinement ----------

  lemma EmptyRepresents()
    ensures Represents(map[], Maps(map[], map[], map[]))
  {
  }

  /** Every operation, whether it fails or not, has the same outcome on the database as on the maps. */
  lemma OpRefines(data: map<string, Value>, m: Maps, op: Op, ok: bool)
    requires Represents(data, m)
    ensures Represents(OnDb(data, op, ok).0, OnMaps(m, op, ok).0) && OnDb(data, op, ok).1 == OnMaps(m, op, ok).1
  {
    if !ok { return; }
    match op
    case StoreMessage(e) => MessagePut(data, m, SrcSlot(e.msg.Key()), e);
    case DeleteMessage(k) => MessageDelete(data, m, SrcSlot(k));
    case StoreTxObject(t) => TxPut(data, m, DstSlot(t.key), t);
    case DeleteTxObject(k) => TxDelete(data, m, DstSlot(k));
    case StoreBlock(height, nid) => BlockPut(data, m, nid, height);
    case GetMessage(k) => assert MessageKeyOf(SrcSlot(k)) in data <==> SrcSlot(k) in m.messages;
    case GetTxObject(k) => assert FinalityKeyOf(DstSlot(k)) in data <==> DstSlot(k) in m.finality;
    case GetLastStoredBlock(nid) => assert BlockKey(nid) in data <==> nid in m.blocks;
    case Clear => EmptyRepresents();
  }

  datatype Call = Call(op: Op, ok: bool)

  function RunOnDb(data: map<string, Value>, calls: seq<Call>): (map<string, Value>, seq<Outcome>)
    decreases |calls|
  {
    if calls == [] then (data, [])
    else
      var first := OnDb(data, calls[0].op, calls[0].ok);
      var rest := RunOnDb(first.0, calls[1..]);
      (rest.0, [first.1] + rest.1)
  }

  function RunOnMaps(m: Maps, calls: seq<Call>): (Maps, seq<Outcome>)
    decreases |calls|
  {
    if calls == [] then (m, [])
    else
      var first := OnMaps(m, calls[0].op, calls[0].ok);
      var rest := RunOnMaps(first.0, calls[1..]);
      (rest.0, [first.1] + rest.1)
  }

  /** Any interleaving of the operations of the three stores on one database, with any pattern of
      failures and for any NIDs, cannot be told from three independent maps. */
  lemma {:induction false} OneDbIsThreeMaps(data: map<string, Value>, m: Maps, calls: seq<Call>)
    requires Represents(data, m)
    ensures Represents(RunOnDb(data, calls).0, RunOnMaps(m, calls).0) && RunOnDb(data, calls).1 == RunOnMaps(m, calls).1
    decreases |calls|
  {
    if calls != [] {
      OpRefines(data, m, calls[0].op, calls[0].ok);
      OneDbIsThreeMaps(OnDb(data, calls[0].op, calls[0].ok).0, OnMaps(m, calls[0].op, calls[0].ok).0, calls[1..]);
    }
  }

  /** The three stores as the relayer makes them. */
  class Stores {
    const db: LevelDb
    const messages: MessageStore
    const finality: FinalityStore
    const blocks: BlockStore

    ghost predicate Valid() { messages.db == db && finality.db == db && blocks.db == db }

    constructor ()
      ensures Valid() && fresh(db) && Represents(db.data, Maps(map[], map[], map[]))
    {
      var d := new LevelDb();
      db := d;
      messages := new MessageStore(d);
      finality := new FinalityStore(d);
      blocks := new BlockStore(d);
      new;
      EmptyRepresents();
    }

    method Do(op: Op, ok: bool) returns (r: Outcome)
      requires Valid()
      modifies db
      ensures (db.data, r) == OnDb(old(db.data), op, ok)
    {
      match op {
        case StoreMessage(e) => r := messages.StoreMessage(e, ok);
        case GetMessage(k) => r := messages.GetMessage(k, ok);
        case DeleteMessage(k) => r := messages.DeleteMessage(k, ok);
        case StoreTxObject(t) => r := finality.StoreTxObject(t, ok);
        case GetTxObject(k) => r := finality.GetTxObject(k, ok);
        case DeleteTxObject(k) => r := finality.DeleteTxObject(k, ok);
        case StoreBlock(height, nid) => r := blocks.StoreBlock(height, nid, ok);
        case GetLastStoredBlock(nid) => r := blocks.GetLastStoredBlock(nid, ok);
        case Clear =>
          db.ClearStore(ok);
          r := if ok then Done else Failure;
      }
    }

    /** The stores, used in any way, answer as the three maps do. */
    method DoAll(calls: seq<Call>, ghost m: Maps) returns (rs: seq<Outcome>)
      requires Valid() && Represents(db.data, m)
      modifies db
      ensures rs == RunOnMaps(m, calls).1 && Represents(db.data, RunOnMaps(m, calls).0)
    {
      rs := [];
      ghost var now := m;
      assert calls[0..] == calls;
      for i := 0 to |calls|
        invariant Represents(db.data, now) && RunOnMaps(m, calls).0 == RunOnMaps(now, calls[i..]).0
        invariant RunOnMaps(m, calls).1 == rs + RunOnMaps(now, calls[i..]).1
      {
        OpRefines(db.data, now, calls[i].op, calls[i].ok);
        ghost var next := OnMaps(now, calls[i].op, calls[i].ok);
        var r := Do(calls[i].op, calls[i].ok);
        assert calls[i..][1..] == calls[i + 1..];
        assert rs + ([r] + RunOnMaps(next.0, calls[i + 1..]).1) == rs + [r] + RunOnMaps(next.0, calls[i + 1..]).1;
        rs := rs + [r];
        now := next.0;
      }
    }
  }
}
