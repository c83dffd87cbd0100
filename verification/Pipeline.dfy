/** The command pipeline as a state machine. Each step moves one command, finishes one NAND
    operation or completes host DMA transfers; firmware steps and hardware steps may interleave
    in any order their guards allow. */
module Pipeline {
  import opened Base
  import opened NandAddress
  import opened Model
  import opened WayScript
  import RQ = RequestQueues

  datatype Loc = InPool | InInit | InWWait | InWIssue | InFtlWait | InNandWait | InFil | InRWait | InRIssue | InDone

  /** Slot i of the buffer ring of command cmd. */
  datatype Slot = Slot(cmd: CmdId, i: nat)

  type CmdMem = s: seq<Cmd> | |s| == 512 witness seq(512, _ => Cmd(0, Rd, 0, 0, 0, []))
  type LocMem = s: seq<Loc> | |s| == 512 witness seq(512, _ => InPool)
  type NoteMem = s: seq<Note> | |s| == 512 witness seq(512, _ => Note(0, {}, [], 0))
  type AddrMem = s: seq<NandAddr> | |s| == 8192 witness seq(8192, _ => ZERO_ADDR)
  type BlockMem = s: seq<Block> | |s| == 8192 witness seq(8192, _ => Block([]))
  type OwnMem = s: seq<Option<Slot>> | |s| == 8192 witness seq(8192, _ => None)
  type L2p = s: seq<NandAddr> | |s| == 16777216 witness seq(16777216, _ => ZERO_ADDR)
  type FlashMem = s: seq<Flash> | |s| == 64 witness seq(64, _ => map[])
  type ScriptPos = s: seq<nat> | |s| == 64 witness seq(64, _ => 0)

  /** What is remembered about the command a struct currently carries: its serial number, the
      commands that were possibly complete when it was fetched, the blocks the host will send,
      and (for a read past the FTL) its place in the commit history. */
  datatype Note = Note(uid: nat, before: set<nat>, payload: seq<Block>, at: nat)

  /** A command leaving ftl_wait_q takes effect: a write stores its blocks, a read is to return
      the blocks stored at that moment. */
  datatype Commit =
    | Wrote(uid: nat, lba: nat, blocks: seq<Block>)
    | Looked(uid: nat, lba: nat, want: seq<Option<Block>>)

  /** Block i of the read committed at position at reached the host with contents got. */
  datatype Sent = Sent(at: nat, i: nat, got: Block)

  /** A command entering ftl_wait_q, with the commands possibly complete before it was fetched. */
  datatype Entry = Entry(uid: nat, before: set<nat>)

  datatype HostCmd = HostCmd(tag: nat, typ: CmdType, lba: nat, nblock: nat, payload: seq<Block>)

  datatype Queues = Queues(
    pool: seq<CmdId>, init: seq<CmdId>, wWait: seq<CmdId>, wIssue: seq<CmdId>, ftlWait: seq<CmdId>,
    nandWait: seq<CmdId>, rWait: seq<CmdId>, rIssue: seq<CmdId>, done: seq<CmdId>)

  datatype State = State(
    // the program's variables
    q: Queues, cmds: CmdMem, fil: RQ.Fil, bufPool: seq<BufId>, bufAddr: AddrMem, l2p: L2p, ctr: Counters,
    // the hardware: DMA memory, outstanding transfers, and the NAND medium
    mem: BlockMem, rx: map<BufId, Block>, tx: set<BufId>, flash: FlashMem,
    // history
    loc: LocMem, own: OwnMem, pos: ScriptPos, log: seq<Block>, hist: seq<Commit>, note: NoteMem,
    uid: nat, entered: seq<Entry>, sent: set<Sent>)

  // ---------------------------------------------------------------- the abstract disk

  function Lookup(d: map<nat, Block>, x: nat): Option<Block> {
    if x in d then Some(d[x]) else None
  }

  function StoreAll(d: map<nat, Block>, lba: nat, blocks: seq<Block>): map<nat, Block> {
    if blocks == [] then d
    else
      var n := |blocks| - 1;
      StoreAll(d, lba, blocks[..n])[lba + n := blocks[n]]
  }

  function Apply(d: map<nat, Block>, e: Commit): map<nat, Block> {
    match e
    case Wrote(_, lba, blocks) => StoreAll(d, lba, blocks)
    case Looked(_, _, _) => d
  }

  /** The disk after a commit history: the blocks of the last write to each address. */
  function Replay(hist: seq<Commit>): map<nat, Block> {
    if hist == [] then map[]
    else Apply(Replay(hist[..|hist| - 1]), hist[|hist| - 1])
  }

  // ---------------------------------------------------------------- NAND operations of a command

  /** The requests fil_process_wait makes for one buffer. */
  function BlockOps(c: CmdId, typ: CmdType, b: BufId, a: NandAddr): seq<Op> {
    match typ
    case Rd => if a.valid then [Op(ReadOp, a, c, b)] else []
    case Wr => (if a.page == 0 then [Op(EraseOp, a, c, b)] else []) + [Op(ProgramOp, a, c, b)]
  }

  function CmdOps(c: CmdId, typ: CmdType, buf: seq<BufId>, bufAddr: AddrMem): seq<Op> {
    if buf == [] then []
    else
      var n := |buf| - 1;
      CmdOps(c, typ, buf[..n], bufAddr) + BlockOps(c, typ, buf[n], bufAddr[buf[n]])
  }

  /** The operations still to be made for the commands of nand_wait_q, oldest first. */
  function AllOps(q: seq<CmdId>, cmds: CmdMem, bufAddr: AddrMem): seq<Op> {
    if q == [] then []
    else CmdOps(q[0], cmds[q[0]].typ, cmds[q[0]].buf, bufAddr) + AllOps(q[1..], cmds, bufAddr)
  }

  function Unmapped(buf: seq<BufId>, bufAddr: AddrMem): nat {
    if buf == [] then 0
    else
      var n := |buf| - 1;
      Unmapped(buf[..n], bufAddr) + (if bufAddr[buf[n]].valid then 0 else 1)
  }

  /** How many buffers of a ring have a read or program outstanding. */
  function Pending(buf: seq<BufId>, keyAt: RQ.ReqPlace): nat {
    if buf == [] then 0
    else
      var n := |buf| - 1;
      Pending(buf[..n], keyAt) + (if keyAt[RQ.DataKey(buf[n])].Some? then 1 else 0)
  }

  // ---------------------------------------------------------------- steps of the HIL

  predicate Full(q: seq<CmdId>) {
    |q| >= QUEUE_CAPACITY
  }

  function Uids(q: seq<CmdId>, note: NoteMem): set<nat> {
    set k: nat | 0 <= k < |q| :: note[q[k]].uid
  }

  function EnteredUids(e: seq<Entry>): set<nat> {
    set k: nat | 0 <= k < |e| :: e[k].uid
  }

  predicate CanFetch(s: State) {
    !Full(s.q.init) && s.q.pool != []
  }

  predicate ValidHostCmd(h: HostCmd) {
    && 1 <= h.nblock <= MAX_NBLOCK
    && h.lba + h.nblock <= HOST_BLOCK_CNT
    && (h.typ == Wr ==> |h.payload| == h.nblock)
  }

  /** hil_read_block and hil_write_block. Every write whose receive DMA has been started may
      already be complete in the host's eyes. */
  function Fetch(s: State, h: HostCmd): State
    requires CanFetch(s)
  {
    var c := s.q.pool[0];
    s.(q := s.q.(pool := s.q.pool[1..], init := s.q.init + [c]),
       cmds := s.cmds[c := Cmd(h.tag, h.typ, h.lba, h.nblock, 0, [])],
       loc := s.loc[c := InInit],
       note := s.note[c := Note(s.uid, EnteredUids(s.entered) + Uids(s.q.wIssue, s.note), h.payload, 0)],
       uid := s.uid + 1)
  }

  predicate CanGrab(s: State) {
    s.q.init != [] && var cmd := s.cmds[s.q.init[0]]; cmd.buf == [] && cmd.nblock <= |s.bufPool|
  }

  /** dmabuf_get for the command at the head of init_q. */
  function Grab(s: State): State
    requires CanGrab(s)
  {
    var c := s.q.init[0];
    var n := s.cmds[c].nblock;
    var buf := s.bufPool[..n];
    s.(cmds := s.cmds[c := s.cmds[c].(buf := buf)],
       bufPool := s.bufPool[n..],
       own := seq(8192, b requires 0 <= b < 8192 =>
                          if b in buf then Some(Slot(c, IndexOf(buf, b))) else s.own[b]))
  }

  predicate CanPassInit(s: State) {
    s.q.init != [] && var cmd := s.cmds[s.q.init[0]];
    cmd.buf != [] && !Full(if cmd.typ == Rd then s.q.ftlWait else s.q.wWait)
  }

  /** The command at the head of init_q moves on: a read to ftl_wait_q, a write to its DMA. */
  function PassInit(s: State): State
    requires CanPassInit(s)
  {
    var c := s.q.init[0];
    if s.cmds[c].typ == Rd then
      s.(q := s.q.(init := s.q.init[1..], ftlWait := s.q.ftlWait + [c]),
         loc := s.loc[c := InFtlWait],
         entered := s.entered + [Entry(s.note[c].uid, s.note[c].before)])
    else
      s.(q := s.q.(init := s.q.init[1..], wWait := s.q.wWait + [c]),
         loc := s.loc[c := InWWait])
  }

  predicate CanIssueRx(s: State) {
    s.q.wWait != [] && !Full(s.q.wIssue)
  }

  /** One receive descriptor per buffer: the host's block i is to land in buffer i. */
  function IssueRx(s: State): State
    requires CanIssueRx(s)
  {
    var c := s.q.wWait[0];
    var buf := s.cmds[c].buf;
    var payload := s.note[c].payload;
    s.(q := s.q.(wWait := s.q.wWait[1..], wIssue := s.q.wIssue + [c]),
       loc := s.loc[c := InWIssue],
       rx := s.rx + map b: BufId | b in buf && IndexOf(buf, b) < |payload| :: payload[IndexOf(buf, b)])
  }

  predicate CanIssueTx(s: State) {
    s.q.rWait != [] && !Full(s.q.rIssue)
  }

  function IssueTx(s: State): State
    requires CanIssueTx(s)
  {
    var c := s.q.rWait[0];
    s.(q := s.q.(rWait := s.q.rWait[1..], rIssue := s.q.rIssue + [c]),
       loc := s.loc[c := InRIssue],
       tx := s.tx + set b: BufId | b in s.cmds[c].buf)
  }

  /** Once check_auto_rx_dma_done has returned, the oldest issued write enters ftl_wait_q. */
  predicate CanPassWritten(s: State) {
    s.q.wIssue != [] && s.rx == map[] && !Full(s.q.ftlWait)
  }

  function PassWritten(s: State): State
    requires CanPassWritten(s)
  {
    var c := s.q.wIssue[0];
    s.(q := s.q.(wIssue := s.q.wIssue[1..], ftlWait := s.q.ftlWait + [c]),
       loc := s.loc[c := InFtlWait],
       entered := s.entered + [Entry(s.note[c].uid, s.note[c].before)])
  }

  function Release(own: OwnMem, buf: seq<BufId>): OwnMem {
    seq(8192, b requires 0 <= b < 8192 => if b in buf then None else own[b])
  }

  /** Once check_auto_tx_dma_done has returned, the oldest issued read is retired. */
  predicate CanRetireRead(s: State) {
    s.q.rIssue != [] && s.tx == {}
  }

  function RetireRead(s: State): State
    requires CanRetireRead(s)
  {
    var c := s.q.rIssue[0];
    s.(q := s.q.(rIssue := s.q.rIssue[1..], pool := s.q.pool + [c]),
       loc := s.loc[c := InPool],
       bufPool := s.cmds[c].buf + s.bufPool,
       own := Release(s.own, s.cmds[c].buf))
  }

  predicate CanRetireWrite(s: State) {
    s.q.done != []
  }

  function RetireWrite(s: State): State
    requires CanRetireWrite(s)
  {
    var c := s.q.done[0];
    s.(q := s.q.(done := s.q.done[1..], pool := s.q.pool + [c]),
       loc := s.loc[c := InPool],
       bufPool := s.cmds[c].buf + s.bufPool,
       own := Release(s.own, s.cmds[c].buf))
  }

  // ---------------------------------------------------------------- host DMA hardware

  /** A receive transfer completes: the host's block is in the buffer. */
  function RxArrive(s: State, b: BufId): State
    requires b in s.rx
  {
    s.(mem := s.mem[b := s.rx[b]], rx := s.rx - {b})
  }

  /** A transmit transfer completes: the host has received what the buffer holds now. */
  function TxLeave(s: State, b: BufId): State
    requires b in s.tx && s.own[b].Some?
  {
    var o := s.own[b].value;
    s.(tx := s.tx - {b}, sent := s.sent + {Sent(s.note[o.cmd].at, o.i, s.mem[b])})
  }

  // ---------------------------------------------------------------- the step of the FTL

  predicate CanMap(s: State) {
    && s.q.ftlWait != [] && !Full(s.q.nandWait)
    && var cmd := s.cmds[s.q.ftlWait[0]];
    && cmd.lba + |cmd.buf| <= HOST_BLOCK_CNT
    && (cmd.typ == Wr ==> |s.log| + |cmd.buf| < WRITE_LIMIT)
  }

  /** The write that would reach the FTL's assert is next in line. */
  predicate Exhausted(s: State) {
    s.q.ftlWait != [] && s.cmds[s.q.ftlWait[0]].typ == Wr && |s.log| + |s.cmds[s.q.ftlWait[0]].buf| >= WRITE_LIMIT
  }

  /** Buffer i of the ring gets address i of the list. */
  function Given(bufAddr: AddrMem, buf: seq<BufId>, addrs: seq<NandAddr>): AddrMem
    requires |addrs| == |buf|
  {
    seq(8192, b requires 0 <= b < 8192 => if b in buf then addrs[IndexOf(buf, b)] else bufAddr[b])
  }

  /** The address block i of the command to be mapped is given. */
  function NewAddr(s: State, i: nat): NandAddr
    requires CanMap(s) && i < |s.cmds[s.q.ftlWait[0]].buf|
  {
    var cmd := s.cmds[s.q.ftlWait[0]];
    if cmd.typ == Rd then s.l2p[cmd.lba + i] else AddrOf(|s.log| + i)
  }

  function NewAddrs(s: State): (r: seq<NandAddr>)
    requires CanMap(s)
    ensures |r| == |s.cmds[s.q.ftlWait[0]].buf|
  {
    var n := |s.cmds[s.q.ftlWait[0]].buf|;
    seq(n, i requires 0 <= i < n => NewAddr(s, i))
  }

  function RemappedEntry(l2p: L2p, lba: nat, count: nat, n: nat, x: nat): NandAddr
    requires x < 16777216
  {
    if lba <= x < lba + count then AddrOf(n + (x - lba)) else l2p[x]
  }

  function Remapped(l2p: L2p, lba: nat, count: nat, n: nat): L2p {
    seq(16777216, x requires 0 <= x < 16777216 => RemappedEntry(l2p, lba, count, n, x))
  }

  /** ftl_process_q: a read copies its addresses out of the table, a write is given the next
      addresses of the log and the table is updated at once, long before anything is programmed. */
  function MapCmd(s: State): State
    requires CanMap(s)
  {
    var c := s.q.ftlWait[0];
    var cmd := s.cmds[c];
    var q' := s.q.(ftlWait := s.q.ftlWait[1..], nandWait := s.q.nandWait + [c]);
    if cmd.typ == Rd then
      var d := Replay(s.hist);
      s.(q := q', loc := s.loc[c := InNandWait],
         bufAddr := Given(s.bufAddr, cmd.buf, NewAddrs(s)),
         note := s.note[c := s.note[c].(at := |s.hist|)],
         hist := s.hist + [Looked(s.note[c].uid, cmd.lba, seq(|cmd.buf|, i requires 0 <= i => Lookup(d, cmd.lba + i)))])
    else
      var n := |s.log|;
      s.(q := q', loc := s.loc[c := InNandWait],
         bufAddr := Given(s.bufAddr, cmd.buf, NewAddrs(s)),
         l2p := Remapped(s.l2p, cmd.lba, |cmd.buf|, n),
         ctr := Digits(n + |cmd.buf|),
         log := s.log + seq(|cmd.buf|, i requires 0 <= i < |cmd.buf| => s.mem[cmd.buf[i]]),
         hist := s.hist + [Wrote(s.note[c].uid, cmd.lba, s.note[c].payload)])
  }

  // ---------------------------------------------------------------- the steps of the FIL

  predicate CanFanOut(s: State) {
    && s.q.nandWait != []
    && var c := s.q.nandWait[0];
    && |CmdOps(c, s.cmds[c].typ, s.cmds[c].buf, s.bufAddr)| <= |s.fil.reqPool|
  }

  /** fil_process_wait: the oldest waiting command becomes requests on the lists of its ways. */
  function FanOut(s: State): State
    requires CanFanOut(s)
  {
    var c := s.q.nandWait[0];
    var cmd := s.cmds[c];
    var fil' := RQ.EnqueueAll(s.fil, CmdOps(c, cmd.typ, cmd.buf, s.bufAddr));
    var ndone' := cmd.ndone + (if cmd.typ == Rd then Unmapped(cmd.buf, s.bufAddr) else 0);
    var t := s.(fil := fil', cmds := s.cmds[c := cmd.(ndone := ndone')]);
    if cmd.typ == Rd && ndone' == cmd.nblock then
      t.(q := s.q.(nandWait := s.q.nandWait[1..], rWait := s.q.rWait + [c]), loc := s.loc[c := InRWait])
    else
      t.(q := s.q.(nandWait := s.q.nandWait[1..]), loc := s.loc[c := InFil])
  }

  /** The discipline of the medium: reads only of programmed pages, programs only of the next
      page of an erased block, erases only of blocks that hold no data. */
  predicate Disciplined(fl: Flash, op: Op) {
    var a := op.addr;
    match op.kind
    case ReadOp => a.block in fl && a.page < |fl[a.block]|
    case ProgramOp => a.block in fl && |fl[a.block]| == a.page
    case EraseOp => a.block !in fl
  }

  predicate CanFinish(s: State, w: WayId) {
    s.fil.queues[w] != [] && Disciplined(s.flash[w], s.fil.queues[w][0].op)
  }

  /** What finishing an operation does to the medium and to DMA memory. */
  function Medium(fl: Flash, op: Op, mem: BlockMem): Flash
    requires Disciplined(fl, op)
  {
    match op.kind
    case ReadOp => fl
    case ProgramOp => fl[op.addr.block := fl[op.addr.block] + [mem[op.buf]]]
    case EraseOp => fl[op.addr.block := []]
  }

  function Memory(fl: Flash, op: Op, mem: BlockMem): BlockMem
    requires Disciplined(fl, op)
  {
    if op.kind == ReadOp then mem[op.buf := fl[op.addr.block][op.addr.page]] else mem
  }

  /** One way's share of fil_process_nand when the NAND driver reports DONE. */
  function Finish(s: State, w: WayId): State
    requires CanFinish(s, w)
  {
    var op := s.fil.queues[w][0].op;
    var c := op.cmd;
    var cmd := s.cmds[c];
    var t := s.(fil := RQ.Dequeue(s.fil, w),
                mem := Memory(s.flash[w], op, s.mem),
                flash := s.flash[w := Medium(s.flash[w], op, s.mem)],
                pos := if op.kind == ReadOp then s.pos else s.pos[w := s.pos[w] + 1]);
    if op.kind == EraseOp then t
    else
      var u := t.(cmds := s.cmds[c := cmd.(ndone := cmd.ndone + 1)]);
      if cmd.ndone + 1 < cmd.nblock then u
      else if cmd.typ == Rd then u.(q := s.q.(rWait := s.q.rWait + [c]), loc := s.loc[c := InRWait])
      else u.(q := s.q.(done := s.q.done + [c]), loc := s.loc[c := InDone])
  }

  // ---------------------------------------------------------------- the machine

  datatype Step =
    | FetchStep(h: HostCmd) | GrabStep | PassInitStep | IssueRxStep | IssueTxStep
    | PassWrittenStep | RetireReadStep | RetireWriteStep
    | RxStep(b: BufId) | TxStep(b: BufId)
    | MapStep | FanOutStep | FinishStep(w: WayId)

  predicate Enabled(s: State, st: Step) {
    match st
    case FetchStep(h) => CanFetch(s) && ValidHostCmd(h)
    case GrabStep => CanGrab(s)
    case PassInitStep => CanPassInit(s)
    case IssueRxStep => CanIssueRx(s)
    case IssueTxStep => CanIssueTx(s)
    case PassWrittenStep => CanPassWritten(s)
    case RetireReadStep => CanRetireRead(s)
    case RetireWriteStep => CanRetireWrite(s)
    case RxStep(b) => b in s.rx
    case TxStep(b) => b in s.tx && s.own[b].Some?
    case MapStep => CanMap(s)
    case FanOutStep => CanFanOut(s)
    case FinishStep(w) => CanFinish(s, w)
  }

  function Do(s: State, st: Step): State
    requires Enabled(s, st)
  {
    match st
    case FetchStep(h) => Fetch(s, h)
    case GrabStep => Grab(s)
    case PassInitStep => PassInit(s)
    case IssueRxStep => IssueRx(s)
    case IssueTxStep => IssueTx(s)
    case PassWrittenStep => PassWritten(s)
    case RetireReadStep => RetireRead(s)
    case RetireWriteStep => RetireWrite(s)
    case RxStep(b) => RxArrive(s, b)
    case TxStep(b) => TxLeave(s, b)
    case MapStep => MapCmd(s)
    case FanOutStep => FanOut(s)
    case FinishStep(w) => Finish(s, w)
  }

  /** The queues after cmd_internal_init: all command structs pooled. */
  function StartQueues(): Queues {
    Queues(seq(512, i requires 0 <= i < 512 => i as CmdId), [], [], [], [], [], [], [], [])
  }

  /** All requests pooled, all lists empty. */
  function StartFil(): RQ.Fil {
    RQ.Fil(seq(16384, i requires 0 <= i < 16384 => i as ReqId), seq(64, _ => []), seq(16384, _ => None), seq(16384, _ => None))
  }

  /** All DMA buffers pooled. */
  function StartBufs(): seq<BufId> {
    seq(8192, i requires 0 <= i < 8192 => i as BufId)
  }

  /** After cmd_internal_init, with a NAND medium nothing is known about. */
  function Start(): State {
    State(StartQueues(), seq(512, _ => Cmd(0, Rd, 0, 0, 0, [])), StartFil(), StartBufs(),
          seq(8192, _ => ZERO_ADDR), seq(16777216, _ => ZERO_ADDR), INIT_COUNTERS,
          seq(8192, _ => Block([])), map[], {}, seq(64, _ => map[]),
          seq(512, _ => InPool), seq(8192, _ => None), seq(64, _ => 0), [], [], seq(512, _ => Note(0, {}, [], 0)),
          0, [], {})
  }
}
