/** The records of cmd_internal.h, the sizes of cmd_internal.c and the state of the pipeline. */
module Model {
  import opened Base
  import opened NandAddress

  const QUEUE_CAPACITY: nat := 127       // a ring of DEFAULT_QSIZE slots holds one less
  const HOST_BLOCK_CNT: nat := 16777216  // 16384 * 1024
  const MAX_NBLOCK: nat := 256

  type CmdId = x: nat | x < 512          // CMD_POOL_SIZE
  type BufId = x: nat | x < 8192         // DMA_PAGE_MAX, 256 * 32
  type ReqId = x: nat | x < 16384        // REQ_POOL_SIZE, CMD_POOL_SIZE * 32

  /** The contents of one 4 KiB block. */
  datatype Block = Block(bytes: seq<bv8>)

  datatype CmdType = Rd | Wr

  /** struct cmd; buf is the ring of DMA buffers in order, [] for NULL. */
  datatype Cmd = Cmd(tag: nat, typ: CmdType, lba: nat, nblock: nat, ndone: nat, buf: seq<BufId>)

  datatype OpKind = ReadOp | ProgramOp | EraseOp

  /** One NAND operation of a command. The C code passes a NULL buffer for an erase; here buf
      then names the buffer whose program the erase precedes, and is never accessed. */
  datatype Op = Op(kind: OpKind, addr: NandAddr, cmd: CmdId, buf: BufId)

  /** struct nand_req: a pooled request carrying an operation. */
  datatype Req = Req(id: ReqId, op: Op)
}
