/** The values that the relayer moves around (relayer/types/types.go), and the
    uint64 arithmetic of its heights. */
module Types {
  const MAX_FLUSH := 10          // maxFlushMessage
  const SAVE_AFTER := 10         // SaveHeightMaxAfter
  const TWO64 := 0x1_0000_0000_0000_0000

  datatype Option<+T> = None | Some(value: T)

  type Bytes = seq<bv8>

  datatype MessageKey = MessageKey(sn: nat, src: string, dst: string, eventType: string)

  datatype Message = Message(dst: string, src: string, sn: nat, data: Bytes, height: nat, eventType: string) {
    function Key(): MessageKey { MessageKey(sn, src, dst, eventType) }
  }

  /** The contents of a RouteMessage object, which is also what the message store keeps. */
  datatype Entry = Entry(msg: Message, retry: nat, isProcessing: bool) {
    predicate IsStale() { retry >= 15 }
  }

  datatype TxObject = TxObject(key: MessageKey, msgHeight: nat, txHash: string, txHeight: nat)

  /** A place in the message store (source chain, number) or in the finality store (destination chain, number). */
  datatype Slot = Slot(nid: string, sn: nat)

  function SrcSlot(k: MessageKey): Slot { Slot(k.src, k.sn) }

  function DstSlot(k: MessageKey): Slot { Slot(k.dst, k.sn) }

  function Add64(a: nat, b: nat): nat { (a + b) % TWO64 }

  function Sub64(a: nat, b: nat): nat
    requires a < TWO64 && b < TWO64
  {
    if a >= b then a - b else a + TWO64 - b
  }
}
