/** The values that every other module talks about: op codes, assignments, the chunks a
    batch is cut into, and the work requests and completions exchanged with the NIC. */
module Types {
  const MAX_SEND_WR: nat := 8192
  const POLL_COUNT: nat := 256
  const SPLIT_STEP: nat := 4096  // MAX_SEND_WR / 2; a literal 4096 where it is a factor or a divisor
  const QP_LIST_LEN: nat := 4
  const TWO32: nat := 0x1_0000_0000
  const TWO64: nat := 0x1_0000_0000_0000_0000

  newtype Byte = x: int | 0 <= x < 256

  datatype Option<+T> = None | Some(value: T)

  datatype OpCode = READ | SEND | RECV

  /** One copy request: `length` bytes from `targetOffset` of the remote region named
      `mrKey` to `sourceOffset` of the local region of the same name. */
  datatype Assignment = Assignment(mrKey: string, targetOffset: nat, sourceOffset: nat, length: nat)

  /** One RDMAAssignment object.  `sid` and `idx` are its identity: chunk `idx` of
      submission `sid`.  `last` tells which callback it carries: the caller's (or the
      default one) on the last chunk, a no-op on the others. */
  datatype Chunk = Chunk(sid: nat, idx: nat, last: bool, opcode: OpCode, batch: seq<Assignment>)

  /** The callback_info_with_qpi_t a nonzero wr_id points to. */
  datatype Token = Token(chunk: Chunk, qpi: nat)

  /** A send work request with its single scatter entry.  `wrId == None` is wr_id 0. */
  datatype Wr = Wr(opcode: OpCode, laddr: nat, length: nat, lkey: nat, raddr: nat, rkey: nat,
                   wrId: Option<Token>, signaled: bool)

  /** A receive work request with its single scatter entry; its wr_id is 0. */
  datatype RecvWr = RecvWr(laddr: nat, length: nat, lkey: nat)

  /** A completion queue entry; `index` is the position of its request in the send queue's
      log (the work-queue counter a NIC reports), meaningless when `recv`. */
  datatype Wc = Wc(qpi: nat, recv: bool, index: nat, ok: bool, wrId: Option<Token>)

  function Min(a: int, b: int): int { if a < b then a else b }
}
