/** What holds in every reachable state of the pipeline. */
module Invariant {
  import opened Base
  import opened NandAddress
  import opened Model
  import opened WayScript
  import RQ = RequestQueues
  import opened Pipeline

  function QueueAt(q: Queues, l: Loc): seq<CmdId>
    requires l != InFil
  {
    match l
    case InPool => q.pool
    case InInit => q.init
    case InWWait => q.wWait
    case InWIssue => q.wIssue
    case InFtlWait => q.ftlWait
    case InNandWait => q.nandWait
    case InRWait => q.rWait
    case InRIssue => q.rIssue
    case InDone => q.done
  }

  /** Every command struct is in exactly the place loc names: one queue, once, or the FIL. */
  ghost predicate Placed(q: Queues, loc: LocMem) {
    forall l: Loc :: l != InFil ==> Lists(QueueAt(q, l), loc, l)
  }

  predicate PastFtl(l: Loc) {
    l.InNandWait? || l.InFil? || l.InRWait? || l.InRIssue? || l.InDone?
  }

  /** A command's fields fit its place in the pipeline. */
  predicate CmdOk(l: Loc, cmd: Cmd, note: Note, hist: seq<Commit>) {
    l == InPool ||
    (&& 1 <= cmd.nblock <= MAX_NBLOCK && cmd.lba + cmd.nblock <= HOST_BLOCK_CNT
     && (cmd.typ == Wr ==> |note.payload| == cmd.nblock)
     && (|cmd.buf| == cmd.nblock || (l == InInit && cmd.buf == []))
     && (l.InWWait? || l.InWIssue? || l.InDone? ==> cmd.typ == Wr)
     && (l.InRWait? || l.InRIssue? ==> cmd.typ == Rd)
     && (!l.InFil? && !l.InRWait? && !l.InRIssue? && !l.InDone? ==> cmd.ndone == 0)
     && (l.InRWait? || l.InRIssue? || l.InDone? ==> cmd.ndone == cmd.nblock)
     && (cmd.typ == Rd && PastFtl(l) ==>
           && note.at < |hist| && hist[note.at].Looked?
           && hist[note.at].uid == note.uid && hist[note.at].lba == cmd.lba
           && |hist[note.at].want| == cmd.nblock))
  }

  ghost predicate CmdsOk(loc: LocMem, cmds: CmdMem, note: NoteMem, hist: seq<Commit>) {
    forall c: CmdId :: CmdOk(loc[c], cmds[c], note[c], hist)
  }

  /** Only the head of init_q can have been given its buffers already. */
  ghost predicate HeadOnly(init: seq<CmdId>, cmds: CmdMem) {
    forall k :: 1 <= k < |init| ==> cmds[init[k]].buf == []
  }

  /** Each command in the FIL is short of completion by exactly its outstanding requests. */
  ghost predicate Counted(loc: LocMem, cmds: CmdMem, keyAt: RQ.ReqPlace) {
    forall c: CmdId :: loc[c] == InFil ==>
      cmds[c].ndone + Pending(cmds[c].buf, keyAt) == cmds[c].nblock && Pending(cmds[c].buf, keyAt) > 0
  }

  /** Each DMA buffer is in the pool or in exactly one slot of exactly one live command. */
  ghost predicate Owned(own: OwnMem, loc: LocMem, cmds: CmdMem, bufPool: seq<BufId>) {
    && Lists(bufPool, own, None)
    && (forall c: CmdId, i: nat :: loc[c] != InPool && i < |cmds[c].buf| ==> own[cmds[c].buf[i]] == Some(Slot(c, i)))
    && (forall b: BufId :: own[b].Some? ==>
          var o := own[b].value; loc[o.cmd] != InPool && o.i < |cmds[o.cmd].buf| && cmds[o.cmd].buf[o.i] == b)
  }

  predicate ReqOk(w: WayId, op: Op, own: OwnMem, loc: LocMem, cmds: CmdMem, bufAddr: AddrMem) {
    && WayOf(op.addr) == w && op.addr.valid && op.addr == bufAddr[op.buf]
    && own[op.buf].Some? && own[op.buf].value.cmd == op.cmd
    && loc[op.cmd] == InFil
    && (op.kind == ReadOp <==> cmds[op.cmd].typ == Rd)
  }

  /** Each request is in the pool or on exactly one list, and belongs to a buffer of a command
      that is still in the FIL. */
  ghost predicate Requested(fil: RQ.Fil, own: OwnMem, loc: LocMem, cmds: CmdMem, bufAddr: AddrMem) {
    && RQ.Valid(fil)
    && (forall w: WayId, k: nat :: k < |fil.queues[w]| ==> ReqOk(w, fil.queues[w][k].op, own, loc, cmds, bufAddr))
  }

  /** An erase is never outstanding without the program it was made for. */
  ghost predicate Paired(keyAt: RQ.ReqPlace) {
    forall b: BufId :: keyAt[RQ.EraseKey(b)].Some? ==> keyAt[RQ.DataKey(b)].Some?
  }

  /** What way w still has to do, in order: its list, then the commands of nand_wait_q. */
  ghost function Todo(fil: RQ.Fil, ops: seq<Op>, w: WayId): seq<Op> {
    RQ.Ops(fil.queues[w]) + RQ.Pick(ops, w)
  }

  /** Carrying out everything a way has to do follows its script and ends with all n writes
      programmed. */
  ghost predicate OnScript(fil: RQ.Fil, ops: seq<Op>, pos: ScriptPos, n: nat) {
    forall w: WayId :: Exec(pos[w], Todo(fil, ops, w)) == Some(EndPos(WritesOn(w, n)))
  }

  ghost predicate FlashOk(flash: FlashMem, pos: ScriptPos, log: seq<Block>) {
    forall w: WayId :: HoldsLog(flash[w], pos[w], w, log)
  }

  /** The address of one of the writes of the log. */
  predicate Handed(a: NandAddr, log: seq<Block>) {
    0 <= LogIndex(a) < |log| && LogIndex(a) < WRITE_LIMIT && a == AddrOf(LogIndex(a))
  }

  ghost predicate EntryOk(a: NandAddr, d: Option<Block>, log: seq<Block>) {
    && (a.valid <==> d.Some?)
    && (a.valid ==> Handed(a, log) && log[LogIndex(a)] == d.value)
  }

  /** The mapping table, read through the log, is the abstract disk. */
  ghost predicate TableOk(l2p: L2p, log: seq<Block>, hist: seq<Commit>) {
    var d := Replay(hist);
    forall x: nat :: x < 16777216 ==> EntryOk(l2p[x], Lookup(d, x), log)
  }

  /** A write's buffer holds, or is about to receive, what the host sent. */
  ghost predicate WriteBufOk(l: Loc, host: Block, a: NandAddr, m: Block, arriving: Option<Block>, pending: bool, log: seq<Block>) {
    match l
    case InWIssue => arriving.GetOr(m) == host
    case InFtlWait => m == host
    case InNandWait => Handed(a, log) && m == log[LogIndex(a)]
    case InFil => pending ==> Handed(a, log) && m == log[LogIndex(a)]
    case _ => true
  }

  /** A read's buffer holds the block it is to return, or its address leads there. */
  ghost predicate ReadBufOk(l: Loc, want: Option<Block>, a: NandAddr, m: Block, pending: bool, log: seq<Block>) {
    match l
    case InNandWait => EntryOk(a, want, log)
    case InFil => if pending then a.valid && EntryOk(a, want, log) else want.Some? ==> m == want.value
    case InRWait => want.Some? ==> m == want.value
    case InRIssue => want.Some? ==> m == want.value
    case _ => true
  }

  ghost predicate BufOk(i: nat, l: Loc, cmd: Cmd, note: Note, a: NandAddr, m: Block, arriving: Option<Block>,
                        pending: bool, log: seq<Block>, hist: seq<Commit>) {
    if cmd.typ == Wr then
      i < |note.payload| && WriteBufOk(l, note.payload[i], a, m, arriving, pending, log)
    else PastFtl(l) ==>
      && note.at < |hist| && hist[note.at].Looked? && i < |hist[note.at].want|
      && ReadBufOk(l, hist[note.at].want[i], a, m, pending, log)
  }

  function Arriving(rx: map<BufId, Block>, b: BufId): Option<Block> {
    if b in rx then Some(rx[b]) else None
  }

  ghost predicate BufOkAt(s: State, b: BufId) {
    s.own[b].Some? ==>
      var o := s.own[b].value;
      BufOk(o.i, s.loc[o.cmd], s.cmds[o.cmd], s.note[o.cmd], s.bufAddr[b], s.mem[b], Arriving(s.rx, b),
            s.fil.keyAt[RQ.DataKey(b)].Some?, s.log, s.hist)
  }

  ghost predicate BufsOk(s: State) {
    forall b: BufId :: BufOkAt(s, b)
  }

  /** Transfers are outstanding only for commands in the two issue queues. */
  ghost predicate DmaOk(rx: map<BufId, Block>, tx: set<BufId>, own: OwnMem, loc: LocMem) {
    && (forall b: BufId :: b in rx ==> own[b].Some? && loc[own[b].value.cmd] == InWIssue)
    && (forall b: BufId :: b in tx ==> own[b].Some? && loc[own[b].value.cmd] == InRIssue)
  }

  /** Every block delivered to the host is the one its read was to return. */
  ghost predicate SentOk(sent: set<Sent>, hist: seq<Commit>) {
    forall x :: x in sent ==>
      && x.at < |hist| && hist[x.at].Looked? && x.i < |hist[x.at].want|
      && (hist[x.at].want[x.i].Some? ==> x.got == hist[x.at].want[x.i].value)
  }

  /** A read commits to the blocks on the disk at its place in the history. */
  ghost predicate HistOk(hist: seq<Commit>) {
    forall k: nat, i: nat :: k < |hist| && hist[k].Looked? && i < |hist[k].want| ==>
      hist[k].want[i] == Lookup(Replay(hist[..k]), hist[k].lba + i)
  }

  ghost predicate Inv(s: State) {
    && Placed(s.q, s.loc)
    && CmdsOk(s.loc, s.cmds, s.note, s.hist)
    && HeadOnly(s.q.init, s.cmds)
    && Counted(s.loc, s.cmds, s.fil.keyAt)
    && Owned(s.own, s.loc, s.cmds, s.bufPool)
    && Requested(s.fil, s.own, s.loc, s.cmds, s.bufAddr)
    && Paired(s.fil.keyAt)
    && OnScript(s.fil, AllOps(s.q.nandWait, s.cmds, s.bufAddr), s.pos, |s.log|)
    && FlashOk(s.flash, s.pos, s.log)
    && s.ctr == Digits(|s.log|) && |s.log| < WRITE_LIMIT
    && TableOk(s.l2p, s.log, s.hist)
    && BufsOk(s)
    && DmaOk(s.rx, s.tx, s.own, s.loc)
    && SentOk(s.sent, s.hist)
    && HistOk(s.hist)
  }
}
