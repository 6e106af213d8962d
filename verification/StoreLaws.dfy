/** What a write to the database changes for the reads of all three stores: the laws of a map for each
    of them, by source and number, by destination and number, and by chain. */
module StoreLaws {
  import opened Types
  import opened StoreKeys
  import opened Store

  /** What a read answers when the database works. */
  function Read(data: map<string, Value>, op: Op): Outcome { OnDb(data, op, true).1 }

  /** The database after a write that succeeds. */
  function Written(data: map<string, Value>, op: Op): map<string, Value> { OnDb(data, op, true).0 }

  predicate SamePlace(a: MessageKey, b: MessageKey) { a.src == b.src && a.sn == b.sn }

  predicate SameTarget(a: MessageKey, b: MessageKey) { a.dst == b.dst && a.sn == b.sn }

  /** The place of a message is its source and number, that of a tx object its destination and number,
      and the keys in the database tell them apart. */
  lemma MessageKeys(a: MessageKey, b: MessageKey)
    ensures SlotKey(MESSAGE, SrcSlot(a)) == SlotKey(MESSAGE, SrcSlot(b)) <==> SamePlace(a, b)
    ensures SrcSlot(a) == SrcSlot(b) <==> SamePlace(a, b)
  {
    SlotKeyInjective(MESSAGE, SrcSlot(a), SrcSlot(b));
  }

  lemma FinalityKeys(a: MessageKey, b: MessageKey)
    ensures SlotKey(FINALITY, DstSlot(a)) == SlotKey(FINALITY, DstSlot(b)) <==> SameTarget(a, b)
    ensures DstSlot(a) == DstSlot(b) <==> SameTarget(a, b)
  {
    SlotKeyInjective(FINALITY, DstSlot(a), DstSlot(b));
  }

  /** After StoreMessage, GetMessage finds the message under its source and number, and answers as
      before under all others. So do the other two stores. */
  lemma StoreMessageThenRead(data: map<string, Value>, e: Entry, k: MessageKey, nid: string)
    ensures var data' := Written(data, Op.StoreMessage(e));
      && Read(data', Op.GetMessage(k)) ==
         (if k.src == e.msg.src && k.sn == e.msg.sn then Outcome.Message(e) else Read(data, Op.GetMessage(k)))
      && Read(data', Op.GetTxObject(k)) == Read(data, Op.GetTxObject(k))
      && Read(data', Op.GetLastStoredBlock(nid)) == Read(data, Op.GetLastStoredBlock(nid))
  {
    MessageKeys(e.msg.Key(), k);
    KeysDisjoint(SrcSlot(e.msg.Key()), DstSlot(k), nid);
  }

  lemma DeleteMessageThenRead(data: map<string, Value>, gone: MessageKey, k: MessageKey, nid: string)
    ensures var data' := Written(data, Op.DeleteMessage(gone));
      && Read(data', Op.GetMessage(k)) == (if SamePlace(gone, k) then Failure else Read(data, Op.GetMessage(k)))
      && Read(data', Op.GetTxObject(k)) == Read(data, Op.GetTxObject(k))
      && Read(data', Op.GetLastStoredBlock(nid)) == Read(data, Op.GetLastStoredBlock(nid))
  {
    MessageKeys(gone, k);
    KeysDisjoint(SrcSlot(gone), DstSlot(k), nid);
  }

  /** The same for tx objects, by destination and number. */
  lemma StoreTxObjectThenRead(data: map<string, Value>, t: TxObject, k: MessageKey, nid: string)
    ensures var data' := Written(data, Op.StoreTxObject(t));
      && Read(data', Op.GetTxObject(k)) ==
         (if k.dst == t.key.dst && k.sn == t.key.sn then TxFound(t) else Read(data, Op.GetTxObject(k)))
      && Read(data', Op.GetMessage(k)) == Read(data, Op.GetMessage(k))
      && Read(data', Op.GetLastStoredBlock(nid)) == Read(data, Op.GetLastStoredBlock(nid))
  {
    FinalityKeys(t.key, k);
    KeysDisjoint(SrcSlot(k), DstSlot(t.key), nid);
  }

  lemma DeleteTxObjectThenRead(data: map<string, Value>, gone: MessageKey, k: MessageKey, nid: string)
    ensures var data' := Written(data, Op.DeleteTxObject(gone));
      && Read(data', Op.GetTxObject(k)) == (if SameTarget(gone, k) then Failure else Read(data, Op.GetTxObject(k)))
      && Read(data', Op.GetMessage(k)) == Read(data, Op.GetMessage(k))
      && Read(data', Op.GetLastStoredBlock(nid)) == Read(data, Op.GetLastStoredBlock(nid))
  {
    FinalityKeys(gone, k);
    KeysDisjoint(SrcSlot(k), DstSlot(gone), nid);
  }

  /** And for the heights, by chain. */
  lemma StoreBlockThenRead(data: map<string, Value>, height: nat, nid: string, k: MessageKey, n: string)
    ensures var data' := Written(data, Op.StoreBlock(height, nid));
      && Read(data', Op.GetLastStoredBlock(n)) ==
         (if n == nid then HeightFound(height) else Read(data, Op.GetLastStoredBlock(n)))
      && Read(data', Op.GetMessage(k)) == Read(data, Op.GetMessage(k))
      && Read(data', Op.GetTxObject(k)) == Read(data, Op.GetTxObject(k))
  {
    BlockKeyInjective(nid, n);
    KeysDisjoint(SrcSlot(k), DstSlot(k), nid);
  }

  /** A failing database, a read and nothing else leave the contents as they are; an empty one finds nothing. */
  lemma ReadsAndFailures(data: map<string, Value>, op: Op, k: MessageKey, n: string)
    ensures OnDb(data, op, false) == (data, Failure)
    ensures op.GetMessage? || op.GetTxObject? || op.GetLastStoredBlock? ==> Written(data, op) == data
    ensures var none := Written(data, Op.Clear);
      && Read(none, Op.GetMessage(k)) == Read(none, Op.GetTxObject(k)) == Failure
      && Read(none, Op.GetLastStoredBlock(n)) == Failure
  {
  }

  /** The keys as texts. */
  lemma KeyTexts(sl: Slot, nid: string)
    ensures SlotKey(MESSAGE, sl) == "message-" + sl.nid + "-" + Decimal(sl.sn)
    ensures SlotKey(FINALITY, sl) == "finality-" + sl.nid + "-" + Decimal(sl.sn)
    ensures BlockKey(nid) == "block-" + nid
  {
    SlotKeyIs(MESSAGE, sl);
    SlotKeyIs(FINALITY, sl);
    BlockKeyIs(nid);
    assert MESSAGE + "-" == "message-" && FINALITY + "-" == "finality-" && BLOCK + "-" == "block-";
  }
}
