/** The firmware itself: the globals of cmd_internal.c, hil.c, ftl.c and fil.c, and their functions
    with the loops of the C code. A ghost field holds the state of the pipeline model; every method
    is proved to leave the globals agreeing with it, after exactly the transition that module
    Schedule describes. */
module Firmware {
  import opened Base
  import opened NandAddress
  import opened Model
  import opened WayScript
  import RQ = RequestQueues
  import opened Pipeline
  import opened Invariant
  import opened Preservation
  import opened FtlPreservation
  import opened FilFanOut
  import opened FilFinish
  import opened Machine
  import opened Schedule
  import opened RealTimeOrder
  import NW = NandWay
  import opened NandTraffic
  import opened DrivenRounds
  import CQ = CmdQueue
  import HD = HostDma

  // ---------------------------------------------------------------- what the methods use of Inv

  /** The head of init_q, write_dma_wait_q, read_dma_wait_q, ftl_wait_q or nand_wait_q. */
  lemma HeadReady(s: State, l: Loc)
    requires Inv(s) && l != InFil && l != InPool && QueueAt(s.q, l) != []
    ensures var cmd := s.cmds[QueueAt(s.q, l)[0]]; var payload := s.note[QueueAt(s.q, l)[0]].payload;
            && 1 <= cmd.nblock && cmd.lba + cmd.nblock <= HOST_BLOCK_CNT
            && (l != InInit ==> |cmd.buf| == cmd.nblock && NoDup(cmd.buf))
            && (l == InWWait ==> |payload| == cmd.nblock)
            && (l == InNandWait ==> cmd.ndone == 0)
  {
    hide CmdsOk, HeadOnly, Counted, Requested, Paired, OnScript, FlashOk, TableOk, BufsOk, DmaOk, SentOk, HistOk;
    AtHead(s.q, s.loc, l);
    var c := QueueAt(s.q, l)[0];
    CmdOkAt(s, c);
    BufNoDup(s.own, s.loc, s.cmds, s.bufPool, c);
  }

  lemma DmawaitKeeps(s: State)
    requires Inv(s)
    ensures Inv(Dmawait(s))
  {
    IssueRxAllKeeps(s);
    IssueTxAllKeeps(IssueRxAll(s));
  }

  lemma InvCounters(s: State)
    requires Inv(s)
    ensures s.ctr == Digits(|s.log|) && |s.log| < WRITE_LIMIT
  {
  }

  /** An address table that has the new addresses at the ring's buffers and is otherwise unchanged. */
  lemma GivenIs(a: AddrMem, a': AddrMem, buf: seq<BufId>, addrs: seq<NandAddr>)
    requires NoDup(buf) && |addrs| == |buf|
    requires forall k :: 0 <= k < |buf| ==> a'[buf[k]] == addrs[k]
    requires forall b: BufId :: b !in buf ==> a'[b] == a[b]
    ensures a' == Given(a, buf, addrs)
  {
    var g := Given(a, buf, addrs);
    forall b: BufId
      ensures a'[b] == g[b]
    {
      if b in buf {
        var k := IndexOf(buf, b);
        assert a'[buf[k]] == addrs[k];
      }
    }
    assert forall b :: 0 <= b < 8192 ==> a'[b] == g[b];
  }

  /** The descriptors of the first i blocks. */
  ghost function RxUpTo(buf: seq<BufId>, payload: seq<Block>, i: nat): map<BufId, Block>
    requires i <= |buf| == |payload|
  {
    if i == 0 then map[] else RxUpTo(buf, payload, i - 1)[buf[i - 1] := payload[i - 1]]
  }

  lemma {:induction false} RxAt(buf: seq<BufId>, payload: seq<Block>, i: nat, b: BufId)
    requires NoDup(buf) && i <= |buf| == |payload|
    ensures b in RxUpTo(buf, payload, i) <==> b in buf && IndexOf(buf, b) < i
    ensures b in RxUpTo(buf, payload, i) ==> RxUpTo(buf, payload, i)[b] == payload[IndexOf(buf, b)]
  {
    if i == 0 {
    } else {
      RxAt(buf, payload, i - 1, b);
      IndexOfUnique(buf, i - 1);
    }
  }

  lemma RxUpToIs(buf: seq<BufId>, payload: seq<Block>, i: nat)
    requires NoDup(buf) && i <= |buf| == |payload|
    ensures RxUpTo(buf, payload, i) == map b: BufId | b in buf && IndexOf(buf, b) < i :: payload[IndexOf(buf, b)]
  {
    hide RxUpTo;
    forall b: BufId
      ensures b in RxUpTo(buf, payload, i) <==> b in buf && IndexOf(buf, b) < i
      ensures b in RxUpTo(buf, payload, i) ==> RxUpTo(buf, payload, i)[b] == payload[IndexOf(buf, b)]
    {
      RxAt(buf, payload, i, b);
    }
  }

  lemma DescriptorsUpTo(s: State)
    requires Inv(s) && s.q.wWait != []
    ensures var c := s.q.wWait[0]; var buf, payload := s.cmds[c].buf, s.note[c].payload;
            && |buf| == |payload| == s.cmds[c].nblock
            && Descriptors(s, c) == RxUpTo(buf, payload, |buf|)
  {
    hide Inv;
    HeadReady(s, InWWait);
    var c := s.q.wWait[0];
    RxUpToIs(s.cmds[c].buf, s.note[c].payload, |s.cmds[c].buf|);
  }

  lemma AddOne<K, V>(m: map<K, V>, n: map<K, V>, k: K, v: V)
    ensures m + n[k := v] == (m + n)[k := v]
  {
  }

  /** The counters after i blocks of a write are the digits of the running count. */
  lemma BumpFrom(n: nat)
    requires n < WRITE_LIMIT
    ensures var d := Digits(n); Pack(d.ch, d.way, d.block, d.page) == AddrOf(n)
    ensures Bump(Digits(n)) == if n + 1 < WRITE_LIMIT then Some(Digits(n + 1)) else None
  {
    BumpIsSuccessor(n);
  }

  lemma CmdOpsSnoc(c: CmdId, typ: CmdType, buf: seq<BufId>, a: AddrMem, i: nat)
    requires i < |buf|
    ensures CmdOps(c, typ, buf[..i + 1], a) == CmdOps(c, typ, buf[..i], a) + BlockOps(c, typ, buf[i], a[buf[i]])
    ensures Unmapped(buf[..i + 1], a) == Unmapped(buf[..i], a) + (if a[buf[i]].valid then 0 else 1)
  {
    assert buf[..i + 1][..i] == buf[..i];
  }

  lemma {:induction false} CmdOpsGrow(c: CmdId, typ: CmdType, buf: seq<BufId>, a: AddrMem, i: nat)
    requires i <= |buf|
    ensures |CmdOps(c, typ, buf[..i], a)| <= |CmdOps(c, typ, buf, a)|
    decreases |buf| - i
  {
    if i == |buf| {
      assert buf[..i] == buf;
    } else {
      CmdOpsSnoc(c, typ, buf, a, i);
      CmdOpsGrow(c, typ, buf, a, i + 1);
    }
  }

  lemma EnqueueAllSnoc(f: RQ.Fil, ops: seq<Op>, op: Op)
    requires |ops| + 1 <= |f.reqPool|
    ensures RQ.EnqueueAll(f, ops + [op]) == RQ.Enqueue(RQ.EnqueueAll(f, ops), op)
  {
    assert (ops + [op])[..|ops + [op]| - 1] == ops;
  }

  /** The outer and inner loops of fil_process_nand visit the ways in the order of WayAt. */
  lemma LooksAt(i: nat, j: nat)
    requires i < 8 && j < 8
    ensures WayAt(8 * i + j) == 8 * j + i
  {
  }

  lemma NotPolledYet(s: State, ways: Ways, envs: NandEnvs)
    ensures PollUpTo(s, Answers(ways, envs), 0) == s && LookedUpTo(ways, envs, 0) == ways
  {
    hide Answers;
  }

  lemma AddedValid(j: Coupled, w: WayId)
    requires Joint(j) && CanFanOut(j.s)
    ensures forall op :: op in RQ.Pick(Added(j.s), w) ==> NW.ValidOp(op)
  {
    hide Inv, InStep, FanOut, CanFanOut, NW.ValidOp;
    FanOutListsAll(j.s, w);
    FanOutKeeps(j.s);
    ListedValid(FanOut(j.s), w);
  }

  lemma NoRoundsYet(envs: seq<Env>, nands: seq<NandEnvs>)
    requires |nands| == |envs|
    ensures CoupledRounds(envs[..0], nands[..0]) == Begin()
  {
  }

  lemma OneMoreRound(envs: seq<Env>, nands: seq<NandEnvs>, n: nat)
    requires |nands| == |envs| && n < |envs|
    ensures CoupledRounds(envs[..n + 1], nands[..n + 1]) == CoupledRound(CoupledRounds(envs[..n], nands[..n]), envs[n], nands[n])
  {
    hide CoupledRound, Begin;
    assert envs[..n + 1][..n] == envs[..n] && nands[..n + 1][..n] == nands[..n];
  }

  lemma BeginsBounded()
    ensures Bounded(Begin().s.q)
  {
  }

  // ---------------------------------------------------------------- what each step touches

  lemma FetchTouches(s: State, h: HostCmd)
    requires CanFetch(s)
    ensures var t, c := Fetch(s, h), s.q.pool[0];
            t == s.(q := s.q.(pool := s.q.pool[1..], init := s.q.init + [c]),
                    cmds := s.cmds[c := Cmd(h.tag, h.typ, h.lba, h.nblock, 0, [])],
                    loc := t.loc, note := t.note, uid := t.uid)
  {
  }

  lemma RetireWriteTouches(s: State)
    requires CanRetireWrite(s)
    ensures var t, c := RetireWrite(s), s.q.done[0];
            t == s.(q := s.q.(done := s.q.done[1..], pool := s.q.pool + [c]), bufPool := s.cmds[c].buf + s.bufPool,
                    loc := t.loc, own := t.own)
  {
  }

  lemma RetireReadTouches(s: State)
    requires CanRetireRead(s)
    ensures var t, c := RetireRead(s), s.q.rIssue[0];
            t == s.(q := s.q.(rIssue := s.q.rIssue[1..], pool := s.q.pool + [c]), bufPool := s.cmds[c].buf + s.bufPool,
                    loc := t.loc, own := t.own)
  {
  }

  lemma PassWrittenTouches(s: State)
    requires CanPassWritten(s)
    ensures var t, c := PassWritten(s), s.q.wIssue[0];
            t == s.(q := s.q.(wIssue := s.q.wIssue[1..], ftlWait := s.q.ftlWait + [c]), loc := t.loc, entered := t.entered)
  {
  }

  lemma IssueRxTouches(s: State)
    requires CanIssueRx(s)
    ensures var t, c := IssueRx(s), s.q.wWait[0];
            t == s.(q := s.q.(wWait := s.q.wWait[1..], wIssue := s.q.wIssue + [c]), rx := s.rx + Descriptors(s, c), loc := t.loc)
  {
  }

  lemma IssueTxTouches(s: State)
    requires CanIssueTx(s)
    ensures var t, c := IssueTx(s), s.q.rWait[0];
            t == s.(q := s.q.(rWait := s.q.rWait[1..], rIssue := s.q.rIssue + [c]),
                    tx := s.tx + (set b: BufId | b in s.cmds[c].buf), loc := t.loc)
  {
  }

  lemma GrabTouches(s: State)
    requires CanGrab(s)
    ensures var t, c := Grab(s), s.q.init[0]; var n := s.cmds[c].nblock;
            t == s.(cmds := s.cmds[c := s.cmds[c].(buf := s.bufPool[..n])], bufPool := s.bufPool[n..], own := t.own)
  {
  }

  lemma PassInitTouches(s: State)
    requires CanPassInit(s)
    ensures var t, c := PassInit(s), s.q.init[0];
            t == s.(q := if s.cmds[c].typ == Rd then s.q.(init := s.q.init[1..], ftlWait := s.q.ftlWait + [c])
                         else s.q.(init := s.q.init[1..], wWait := s.q.wWait + [c]),
                    loc := t.loc, entered := t.entered)
  {
  }

  lemma InitAllUnfolds(s: State)
    requires Inv(s) && s.q.init != []
    ensures var t := GrabIfNeeded(s);
            && Inv(t) && t.q == s.q && s.cmds[s.q.init[0]].nblock >= 1
            && (CanPassInit(t) ==> Inv(PassInit(t)) && InitAll(s) == InitAll(PassInit(t)) && PassInit(t).q.init == s.q.init[1..])
            && (!CanPassInit(t) ==> InitAll(s) == t)
  {
    hide Inv;
    HeadReady(s, InInit);
    GrabIfNeededKeeps(s);
    var t := GrabIfNeeded(s);
    if CanPassInit(t) {
      PassInitKeeps(t);
    }
  }

  lemma InitAllEmpty(s: State)
    ensures s.q.init == [] ==> InitAll(s) == s
    ensures s.q.init != [] && s.cmds[s.q.init[0]].buf == [] ==> !CanPassInit(s)
  {
  }

  lemma DoneqUnfolds(s: State)
    ensures DoneqAll(s) == if CanRetireWrite(s) then DoneqAll(RetireWrite(s)) else s
  {
  }

  lemma IssueRxUnfolds(s: State)
    ensures IssueRxAll(s) == if CanIssueRx(s) then IssueRxAll(IssueRx(s)) else s
  {
  }

  lemma IssueTxUnfolds(s: State)
    ensures IssueTxAll(s) == if CanIssueTx(s) then IssueTxAll(IssueTx(s)) else s
  {
  }

  lemma RetireUnfolds(s: State)
    ensures RetireAll(s) == if CanRetireRead(s) then RetireAll(RetireRead(s)) else s
  {
  }

  /** The addresses of count blocks written from position n of the log. */
  function LogAddrs(n: nat, count: nat): seq<NandAddr> {
    seq(count, i requires 0 <= i < count => AddrOf(n + i))
  }

  lemma MapCmdTouches(s: State)
    requires CanMap(s)
    ensures var t, c := MapCmd(s), s.q.ftlWait[0];
            t == s.(q := s.q.(ftlWait := s.q.ftlWait[1..], nandWait := s.q.nandWait + [c]),
                    bufAddr := t.bufAddr, l2p := t.l2p, ctr := t.ctr,
                    loc := t.loc, note := t.note, log := t.log, hist := t.hist)
  {
    hide Replay, Given, Remapped, NewAddrs, Digits;
  }

  lemma MapCmdRead(s: State)
    requires CanMap(s) && s.cmds[s.q.ftlWait[0]].typ == Rd
    ensures var t, cmd := MapCmd(s), s.cmds[s.q.ftlWait[0]];
            t.bufAddr == Given(s.bufAddr, cmd.buf, NewAddrs(s)) && t.l2p == s.l2p && t.ctr == s.ctr
  {
    hide Replay, Given, Digits, NewAddrs;
  }

  lemma MapCmdWrite(s: State)
    requires CanMap(s) && s.cmds[s.q.ftlWait[0]].typ == Wr
    ensures var t, cmd := MapCmd(s), s.cmds[s.q.ftlWait[0]]; var n, count := |s.log|, |cmd.buf|;
            && t.bufAddr == Given(s.bufAddr, cmd.buf, LogAddrs(n, count))
            && t.l2p == Remapped(s.l2p, cmd.lba, count, n)
            && t.ctr == Digits(n + count)
  {
    hide Replay, Given, Digits, Remapped, AddrOf;
    var cmd := s.cmds[s.q.ftlWait[0]];
    assert NewAddrs(s) == LogAddrs(|s.log|, |cmd.buf|);
  }

  /** What the loops of ftl_process_q rely on. */
  lemma HeadMapped(s: State)
    requires Inv(s) && s.q.ftlWait != [] && |s.q.nandWait| < QUEUE_CAPACITY
    ensures CanMap(s) == !Exhausted(s)
    ensures var cmd := s.cmds[s.q.ftlWait[0]]; var n := |s.log|;
            && 1 <= cmd.nblock == |cmd.buf| && NoDup(cmd.buf) && cmd.lba + cmd.nblock <= HOST_BLOCK_CNT
            && n < WRITE_LIMIT && s.ctr == Digits(n)
            && (cmd.typ == Rd ==> CanMap(s))
            && (cmd.typ == Wr ==> CanMap(s) == (n + cmd.nblock < WRITE_LIMIT))
  {
    hide Inv, Digits;
    HeadReady(s, InFtlWait);
    InvCounters(s);
  }

  lemma FanOutTouches(s: State)
    requires CanFanOut(s)
    ensures var t, c := FanOut(s), s.q.nandWait[0]; var cmd := s.cmds[c];
            var ndone := cmd.ndone + (if cmd.typ == Rd then Unmapped(cmd.buf, s.bufAddr) else 0);
            var q := s.q.(nandWait := s.q.nandWait[1..]);
            t == s.(q := if cmd.typ == Rd && ndone == cmd.nblock then q.(rWait := q.rWait + [c]) else q,
                    fil := RQ.EnqueueAll(s.fil, CmdOps(c, cmd.typ, cmd.buf, s.bufAddr)),
                    cmds := s.cmds[c := cmd.(ndone := ndone)], loc := t.loc)
  {
    hide RQ.EnqueueAll, CmdOps, Unmapped;
  }

  /** What the loops of fil_process_wait rely on, and what they are to add. */
  lemma FanOutAdds(s: State)
    requires Inv(s) && s.q.nandWait != []
    ensures CanFanOut(s)
    ensures var t, c := FanOut(s), s.q.nandWait[0]; var cmd := s.cmds[c];
            && cmd.nblock == |cmd.buf| && cmd.ndone == 0
            && |CmdOps(c, cmd.typ, cmd.buf, s.bufAddr)| <= |s.fil.reqPool|
            && t.fil == RQ.EnqueueAll(s.fil, CmdOps(c, cmd.typ, cmd.buf, s.bufAddr))
            && (cmd.typ == Rd ==> t.cmds == s.cmds[c := cmd.(ndone := cmd.ndone + Unmapped(cmd.buf, s.bufAddr))])
            && (cmd.typ == Wr ==> t.cmds == s.cmds)
  {
    hide Inv, RQ.EnqueueAll, CmdOps, Unmapped;
    FanOutNeverStarves(s);
    HeadReady(s, InNandWait);
  }

  function PassedDone(q: Queues, typ: CmdType, c: CmdId): Queues {
    if typ == Rd then q.(rWait := q.rWait + [c]) else q.(done := q.done + [c])
  }

  /** One more of a command's reads or programs is done; the last one passes the command on. */
  function CountedOnce(s: State, c: CmdId): State {
    var cmd := s.cmds[c].(ndone := s.cmds[c].ndone + 1);
    s.(cmds := s.cmds[c := cmd], q := if cmd.ndone < cmd.nblock then s.q else PassedDone(s.q, cmd.typ, c))
  }

  lemma FinishTouches(s: State, w: WayId)
    requires CanFinish(s, w)
    ensures var t, op := Finish(s, w), s.fil.queues[w][0].op;
            var u := if op.kind == EraseOp then s else CountedOnce(s, op.cmd);
            && u.fil == s.fil
            && t == u.(fil := RQ.Dequeue(s.fil, w), mem := t.mem, flash := t.flash, pos := t.pos, loc := t.loc)
  {
    hide RQ.Dequeue, Memory, Medium;
  }

  lemma {:induction false} TransfersTouch(s: State, bs: seq<BufId>)
    ensures var t := Transfers(s, bs); t == s.(mem := t.mem, rx := t.rx, tx := t.tx, sent := t.sent)
    decreases bs
  {
    if bs == [] {
    } else {
      var t := if bs[0] in s.rx then RxArrive(s, bs[0])
               else if bs[0] in s.tx && s.own[bs[0]].Some? then TxLeave(s, bs[0]) else s;
      TransfersTouch(t, bs[1..]);
    }
  }

  /** Adding the requests of a command block by block never finds the pool empty, and adds what
      FanOut adds. */
  lemma FanOutBlock(f: RQ.Fil, c: CmdId, typ: CmdType, buf: seq<BufId>, a: AddrMem, i: nat)
    requires |CmdOps(c, typ, buf, a)| <= |f.reqPool| && i < |buf|
    ensures |CmdOps(c, typ, buf[..i], a)| <= |f.reqPool| && |CmdOps(c, typ, buf[..i + 1], a)| <= |f.reqPool|
    ensures var g, g' := RQ.EnqueueAll(f, CmdOps(c, typ, buf[..i], a)), RQ.EnqueueAll(f, CmdOps(c, typ, buf[..i + 1], a));
            var b := buf[i]; var erase, program := Op(EraseOp, a[b], c, b), Op(ProgramOp, a[b], c, b);
            && (typ == Rd && !a[b].valid ==> g' == g)
            && (typ == Rd && a[b].valid ==> g.reqPool != [] && g' == RQ.Enqueue(g, Op(ReadOp, a[b], c, b)))
            && (typ == Wr && a[b].page != 0 ==> g.reqPool != [] && g' == RQ.Enqueue(g, program))
            && (typ == Wr && a[b].page == 0 ==> |g.reqPool| >= 2 && g' == RQ.Enqueue(RQ.Enqueue(g, erase), program))
  {
    CmdOpsGrow(c, typ, buf, a, i);
    CmdOpsGrow(c, typ, buf, a, i + 1);
    CmdOpsSnoc(c, typ, buf, a, i);
    var ops, b := CmdOps(c, typ, buf[..i], a), buf[i];
    if typ == Rd {
      if a[b].valid {
        EnqueueAllSnoc(f, ops, Op(ReadOp, a[b], c, b));
      } else {
        assert ops + [] == ops;
      }
    } else {
      var erase, program := Op(EraseOp, a[b], c, b), Op(ProgramOp, a[b], c, b);
      if a[b].page == 0 {
        EnqueueAllSnoc(f, ops, erase);
        EnqueueAllSnoc(f, ops + [erase], program);
        assert ops + [erase] + [program] == ops + ([erase] + [program]);
      } else {
        EnqueueAllSnoc(f, ops, program);
        assert [] + [program] == [program];
      }
    }
  }

  /** The write ftl_run is to map in this round would use up the log. */
  predicate LogEnds(s: State, e: Env) {
    var t := Transfers(AfterHil(s, e), e.beforeFtl);
    Exhausted(t) && |t.q.nandWait| < QUEUE_CAPACITY
  }

  /** What holds at the points of a round where the three functions are called. */
  lemma RoundPoints(s: State, e: Env)
    requires Inv(s) && Bounded(s.q) && ValidArrival(e.arrival)
    ensures Inv(Transfers(s, e.beforeHil)) && Inv(Transfers(AfterHil(s, e), e.beforeFtl))
    ensures var t := Transfers(AfterFtl(s, e), e.beforeFil); Inv(t) && t.q.rWait == [] && t.q.done == []
  {
    hide Inv, Bounded, AfterHil, AfterFtl, Transfers;
    TransfersKeep(s, e.beforeHil);
    AfterHilKeeps(s, e);
    TransfersKeep(AfterHil(s, e), e.beforeFtl);
    AfterFtlKeeps(s, e);
    TransfersKeep(AfterFtl(s, e), e.beforeFil);
    BeforeFilQueues(s, e);
  }

  lemma FanOutNone(f: RQ.Fil, c: CmdId, typ: CmdType, buf: seq<BufId>, a: AddrMem)
    ensures CmdOps(c, typ, buf[..0], a) == [] && RQ.EnqueueAll(f, CmdOps(c, typ, buf[..0], a)) == f && Unmapped(buf[..0], a) == 0
  {
  }

  lemma FtlIdle(s: State)
    ensures s.q.ftlWait == [] || |s.q.nandWait| >= QUEUE_CAPACITY ==> !CanMap(s)
    ensures s.q.ftlWait == [] ==> !Exhausted(s)
  {
  }

  /** The receive descriptors of a command: the host's block i is to land in buffer i. */
  ghost function Descriptors(s: State, c: CmdId): map<BufId, Block> {
    var buf, payload := s.cmds[c].buf, s.note[c].payload;
    map b: BufId | b in buf && IndexOf(buf, b) < |payload| :: payload[IndexOf(buf, b)]
  }

  // ---------------------------------------------------------------- the controller task

  datatype NvmeTask = TASK_IDLE | TASK_WAIT_CC_EN | TASK_RUNNING | TASK_SHUTDOWN | TASK_WAIT_RESET | TASK_RESET

  /** A command fetched from a submission queue: only reads and writes concern the pipeline. */
  datatype NvmeCommand = AdminCommand | FlushCommand | IoCommand(h: HostCmd)

  /** What the interrupt handler finds, of what it acts on. */
  datatype DevIrq = DevIrq(linkDown: bool, ccEnChanged: bool, ccShnSet: bool)

  /** What a round sees of the controller: an interrupt beforehand, the configuration bits, and the
      next command, if any. */
  datatype NvmeSight = NvmeSight(irq: DevIrq, ccEn: bool, ccShn: bool, cmd: Option<NvmeCommand>)

  /** dev_irq_handler. */
  function AfterIrq(task: NvmeTask, see: NvmeSight): NvmeTask {
    if see.irq.ccShnSet then TASK_SHUTDOWN
    else if see.irq.ccEnChanged then if see.ccEn then TASK_WAIT_CC_EN else TASK_RESET
    else if see.irq.linkDown then TASK_RESET
    else task
  }

  /** The read or write that is next, if one is. */
  function IoNext(see: NvmeSight): Option<HostCmd> {
    if see.cmd.Some? && see.cmd.value.IoCommand? then Some(see.cmd.value.h) else None
  }

  /** The command that reaches the pipeline, if the controller is running. */
  function Arrival(task: NvmeTask, see: NvmeSight): Option<HostCmd> {
    if AfterIrq(task, see) == TASK_RUNNING then IoNext(see) else None
  }

  function NextTask(task: NvmeTask, see: NvmeSight): NvmeTask {
    match AfterIrq(task, see)
    case TASK_WAIT_CC_EN => if see.ccEn then TASK_RUNNING else TASK_WAIT_CC_EN
    case TASK_SHUTDOWN => if see.ccShn then TASK_WAIT_RESET else TASK_SHUTDOWN
    case TASK_WAIT_RESET => if !see.ccEn then TASK_IDLE else TASK_WAIT_RESET
    case TASK_RESET => TASK_IDLE
    case t => t
  }

  /** The task after some rounds, from power-up. */
  function TaskAfter(sees: seq<NvmeSight>): NvmeTask {
    if sees == [] then TASK_IDLE else NextTask(TaskAfter(sees[..|sees| - 1]), sees[|sees| - 1])
  }

  /** The arrivals of the rounds are what the controller lets through. */
  ghost predicate Fed(envs: seq<Env>, sees: seq<NvmeSight>) {
    |sees| == |envs| && forall k :: 0 <= k < |envs| ==> envs[k].arrival == Arrival(TaskAfter(sees[..k]), sees[k])
  }

  /** Between power-up and the moment the host enables the controller nothing arrives. */
  lemma {:induction false} NothingBeforeEnable(sees: seq<NvmeSight>)
    requires forall k :: 0 <= k < |sees| ==> !sees[k].irq.ccEnChanged
    ensures TaskAfter(sees) !in {TASK_RUNNING, TASK_WAIT_CC_EN}
    decreases |sees|
  {
    if sees == [] {
    } else {
      NothingBeforeEnable(sees[..|sees| - 1]);
    }
  }

  class Firmware {
    // cmd_internal.c
    var cmdPoolQ: seq<CmdId>
    var initQ: seq<CmdId>
    var writeDmaWaitQ: seq<CmdId>
    var writeDmaIssueQ: seq<CmdId>
    var ftlWaitQ: seq<CmdId>
    var nandWaitQ: seq<CmdId>
    var readDmaWaitQ: seq<CmdId>
    var readDmaIssueQ: seq<CmdId>
    const doneRing: CQ.CmdQueue<CmdId>
    ghost var doneQ: seq<CmdId>        // what it contains
    var cmdMem: CmdMem
    var reqPoolQ: seq<ReqId>
    var dmaBufList: seq<BufId>
    var bufAddr: AddrMem
    // ftl.c
    var l2pTable: L2p
    var iCh: nat
    var iWay: nat
    var iPage: nat
    var iBlock: nat
    // fil.c
    var requestQ: RQ.ReqQueues
    // fil_nand.c, one for each way
    const drivers: seq<NW.Driver>
    // nvme_main.c
    var nvmeTask: NvmeTask
    // host_lld.c
    const engine: HD.Engine
    // the descriptors handed to the engine and, as far as the model knows, not yet completed
    ghost var rx: map<BufId, Block>
    ghost var tx: set<BufId>
    // the model
    ghost var model: State

    /** The variables are those of state s. */
    ghost predicate Shows(s: State)
      reads this
    {
      && s.q.pool == cmdPoolQ && s.q.init == initQ && s.q.wWait == writeDmaWaitQ
      && s.q.wIssue == writeDmaIssueQ && s.q.ftlWait == ftlWaitQ && s.q.nandWait == nandWaitQ
      && s.q.rWait == readDmaWaitQ && s.q.rIssue == readDmaIssueQ && s.q.done == doneQ
      && s.cmds == cmdMem
      && s.fil.reqPool == reqPoolQ && s.fil.queues == requestQ
      && s.bufPool == dmaBufList
      && s.bufAddr == bufAddr
      && s.l2p == l2pTable
      && s.ctr == Counters(iCh, iWay, iPage, iBlock)
      && s.rx == rx && s.tx == tx
    }

    lemma QueuesShown()
      requires Sync()
      ensures readDmaWaitQ == model.q.rWait && doneQ == model.q.done && nandWaitQ == model.q.nandWait
      ensures requestQ == model.fil.queues
    {
    }

    ghost predicate Sync()
      reads this
    {
      Shows(model)
    }

    ghost predicate DriversOk()
      reads drivers
    {
      && |drivers| == 64 && (forall v, w :: 0 <= v < w < 64 ==> drivers[v] != drivers[w])
      && forall w :: 0 <= w < 64 ==> drivers[w].InOrder()
    }

    /** done_q is a ring of DEFAULT_QSIZE slots; the other queues are sequences. */
    ghost predicate RingOk()
      reads this`doneQ, doneRing, doneRing.arr
    {
      doneRing.Valid() && doneRing.size == QUEUE_CAPACITY + 1 && doneRing.Contents() == doneQ
    }

    ghost predicate EngineOk()
      reads engine, engine.rx, engine.tx
    {
      engine.Valid()
    }

    ghost predicate PartsOk()
      reads this`doneQ, doneRing, doneRing.arr, engine, engine.rx, engine.tx, drivers
    {
      RingOk() && EngineOk() && DriversOk()
    }

    /** The drivers' histories. */
    ghost function History(): Ways
      requires |drivers| == 64
      reads drivers
    {
      seq(64, w requires 0 <= w < 64 reads drivers => drivers[w].way)
    }

    /** The whole of it: the model and the drivers. */
    ghost function System(): Coupled
      requires |drivers| == 64
      reads this`model, drivers
    {
      Coupled(model, History())
    }

    /** NAND_Initialize. */
    static method NewDrivers() returns (ds: seq<NW.Driver>)
      ensures |ds| == 64 && forall v, w :: 0 <= v < w < 64 ==> ds[v] != ds[w]
      ensures forall w :: 0 <= w < 64 ==>
        fresh(ds[w]) && ds[w].InOrder() && ds[w].way == NW.FRESH_WAY
    {
      ds := [];
      for i := 0 to 64
        invariant |ds| == i && (forall v, w :: 0 <= v < w < i ==> ds[v] != ds[w])
        invariant forall w :: 0 <= w < i ==>
          fresh(ds[w]) && ds[w].InOrder() && ds[w].way == NW.FRESH_WAY
      {
        var d := new NW.Driver();
        ds := ds + [d];
      }
    }

    /** cmd_internal_init and NAND_Initialize, with the statics of ftl.c and the lists of fil_init.
        future is how the DMA engine will go on. */
    constructor (future: seq<(nat, nat)>)
      ensures Sync() && model == Start() && DriversOk() && System() == Begin() && RingOk() && EngineOk()
      ensures nvmeTask == TASK_IDLE
      ensures fresh(doneRing) && fresh(doneRing.arr) && fresh(engine) && fresh(engine.rx) && fresh(engine.tx)
      ensures forall d :: d in drivers ==> fresh(d)
    {
      cmdPoolQ := StartQueues().pool;
      initQ, writeDmaWaitQ, writeDmaIssueQ, ftlWaitQ, nandWaitQ := [], [], [], [], [];
      readDmaWaitQ, readDmaIssueQ, doneQ := [], [], [];
      cmdMem := seq(512, _ => Cmd(0, Rd, 0, 0, 0, []));
      reqPoolQ := StartFil().reqPool;
      requestQ := seq(64, _ => []);
      dmaBufList := StartBufs();
      bufAddr := seq(8192, _ => ZERO_ADDR);
      l2pTable := seq(16777216, _ => ZERO_ADDR);
      iCh, iWay, iPage, iBlock := 0, 0, 0, FIRST_BLOCK;
      rx, tx := map[], {};
      nvmeTask := TASK_IDLE;
      model := Start();
      var ds := NewDrivers();
      drivers := ds;
      doneRing := new CQ.CmdQueue(QUEUE_CAPACITY + 1);
      engine := new HD.Engine(future);
    }

    // ---------------------------------------------------------------- cmd_internal.c

    method NewCmd() returns (cmd: CmdId)
      requires cmdPoolQ != []
      modifies this`cmdPoolQ
      ensures cmd == old(cmdPoolQ)[0] && cmdPoolQ == old(cmdPoolQ)[1..]
    {
      cmd := cmdPoolQ[0];
      cmdPoolQ := cmdPoolQ[1..];
    }

    method DelCmd(cmd: CmdId)
      modifies this`cmdPoolQ
      ensures cmdPoolQ == old(cmdPoolQ) + [cmd]
    {
      cmdPoolQ := cmdPoolQ + [cmd];
    }

    /** None for NULL. */
    method NewReq() returns (r: Option<ReqId>)
      modifies this`reqPoolQ
      ensures r == None <==> old(reqPoolQ) == []
      ensures r.Some? ==> [r.value] + reqPoolQ == old(reqPoolQ)
      ensures r.None? ==> reqPoolQ == old(reqPoolQ)
    {
      if reqPoolQ == [] {
        return None;
      }
      r := Some(reqPoolQ[0]);
      reqPoolQ := reqPoolQ[1..];
    }

    /** Detaches the first nblock buffers; [] for NULL when there are too few. */
    method DmabufGet(nblock: nat) returns (buf: seq<BufId>)
      modifies this`dmaBufList
      ensures |old(dmaBufList)| < nblock ==> buf == [] && dmaBufList == old(dmaBufList)
      ensures |old(dmaBufList)| >= nblock ==> buf == old(dmaBufList)[..nblock] && dmaBufList == old(dmaBufList)[nblock..]
    {
      if |dmaBufList| < nblock {
        return [];
      }
      buf := dmaBufList[..nblock];
      dmaBufList := dmaBufList[nblock..];
    }

    method DmabufPut(buf: seq<BufId>)
      modifies this`dmaBufList
      ensures dmaBufList == buf + old(dmaBufList)
    {
      dmaBufList := buf + dmaBufList;
    }

    // ---------------------------------------------------------------- hil.c

    /** hil_read_block and hil_write_block, which differ in the type they store only. The queue
        assert of the C code is the one here. */
    method HilBlock(h: HostCmd)
      requires Sync() && CanFetch(model)
      modifies this`cmdPoolQ, this`initQ, this`cmdMem, this`model
      ensures Sync() && model == Fetch(old(model), h)
    {
      hide Fetch;
      FetchTouches(model, h);
      var cmd := NewCmd();
      cmdMem := cmdMem[cmd := Cmd(h.tag, h.typ, h.lba, h.nblock, 0, [])];
      assert |initQ| < QUEUE_CAPACITY;
      initQ := initQ + [cmd];
      model := Fetch(model, h);
    }

    /** dev_irq_handler: its three tests come one after the other, and the last that applies wins. */
    method DevIrqHandler(see: NvmeSight)
      modifies this`nvmeTask
      ensures nvmeTask == AfterIrq(old(nvmeTask), see)
    {
      if see.irq.linkDown {
        nvmeTask := TASK_RESET;
      }
      if see.irq.ccEnChanged {
        nvmeTask := if see.ccEn then TASK_WAIT_CC_EN else TASK_RESET;
      }
      if see.irq.ccShnSet {
        nvmeTask := TASK_SHUTDOWN;
      }
    }

    /** While the controller is running a command is fetched if there is room for it; admin and flush
        commands do not reach the pipeline. */
    method FetchCommand(see: NvmeSight)
      requires Sync()
      modifies this`cmdPoolQ, this`initQ, this`cmdMem, this`model
      ensures Sync() && model == Schedule.NvmeRun(old(model), IoNext(see))
    {
      if |initQ| >= QUEUE_CAPACITY || cmdPoolQ == [] {
        return;
      }
      if see.cmd.Some? && see.cmd.value.IoCommand? {
        HilBlock(see.cmd.value.h);
      }
    }

    /** nvme_run, after the interrupt that may have come before it. */
    method NvmeRun(see: NvmeSight)
      requires Sync()
      modifies this`cmdPoolQ, this`initQ, this`cmdMem, this`model, this`nvmeTask
      ensures Sync() && model == Schedule.NvmeRun(old(model), Arrival(old(nvmeTask), see))
      ensures nvmeTask == NextTask(old(nvmeTask), see)
    {
      hide Fetch;
      DevIrqHandler(see);
      if nvmeTask == TASK_WAIT_CC_EN {
        if see.ccEn {
          nvmeTask := TASK_RUNNING;
        }
      } else if nvmeTask == TASK_RUNNING {
        FetchCommand(see);
      } else if nvmeTask == TASK_SHUTDOWN {
        if see.ccShn {
          nvmeTask := TASK_WAIT_RESET;
        }
      } else if nvmeTask == TASK_WAIT_RESET {
        if !see.ccEn {
          nvmeTask := TASK_IDLE;
        }
      } else if nvmeTask == TASK_RESET {
        nvmeTask := TASK_IDLE;
      }
    }

    /** The loop body of hil_process_doneq: the oldest finished write. */
    method RetireHeadWrite()
      requires Sync() && RingOk() && doneQ != []
      modifies this`doneQ, this`cmdPoolQ, this`dmaBufList, this`model, doneRing
      ensures Sync() && RingOk() && model == RetireWrite(old(model)) && doneQ == old(doneQ)[1..]
    {
      hide RetireWrite;
      RetireWriteTouches(model);
      var cmd := doneRing.GetHead();
      doneRing.PopHead();
      doneQ := doneQ[1..];
      DmabufPut(cmdMem[cmd].buf);
      DelCmd(cmd);
      model := RetireWrite(model);
    }

    method HilProcessDoneq()
      requires Sync() && RingOk()
      modifies this`doneQ, this`cmdPoolQ, this`dmaBufList, this`model, doneRing
      ensures Sync() && RingOk() && model == DoneqAll(old(model))
    {
      hide RetireWrite, DoneqAll;
      while !doneRing.Empty()
        invariant Sync() && RingOk() && DoneqAll(model) == DoneqAll(old(model))
        decreases |doneQ|
      {
        ghost var s := model;
        RetireHeadWrite();
        DoneqUnfolds(s);
      }
      DoneqUnfolds(model);
    }

    /** Once every issued receive transfer is complete, what the model holds outstanding has arrived. */
    ghost method AllArrived()
      requires Sync() && engine.rx.done == engine.rx.issued
      modifies this`rx, this`model
      ensures Sync() && model == RxDrain(old(model)) && rx == map[]
    {
      rx := map[];
      model := RxDrain(model);
    }

    /** Once every issued transmit transfer is complete, what the model holds outstanding has left. */
    ghost method AllLeft()
      requires Sync() && engine.tx.done == engine.tx.issued
      modifies this`tx, this`model
      ensures Sync() && model == TxDrain(old(model)) && tx == {}
    {
      tx := {};
      model := TxDrain(model);
    }

    method PassWrittenLoop()
      requires Sync() && rx == map[]
      modifies this`writeDmaIssueQ, this`ftlWaitQ, this`model
      ensures Sync() && model == PassAll(old(model))
    {
      hide PassWritten;
      while writeDmaIssueQ != []
        invariant Sync() && PassAll(model) == PassAll(old(model))
        decreases |writeDmaIssueQ|
      {
        var cmd := writeDmaIssueQ[0];
        if |ftlWaitQ| >= QUEUE_CAPACITY {
          break;
        }
        PassWrittenTouches(model);
        writeDmaIssueQ := writeDmaIssueQ[1..];
        ftlWaitQ := ftlWaitQ + [cmd];
        model := PassWritten(model);
      }
    }

    /** The loop body of the second loop of hil_process_dmadone. */
    method RetireHeadRead()
      requires Sync() && tx == {} && readDmaIssueQ != []
      modifies this`readDmaIssueQ, this`cmdPoolQ, this`dmaBufList, this`model
      ensures Sync() && CanRetireRead(old(model)) && model == RetireRead(old(model)) && readDmaIssueQ == old(readDmaIssueQ)[1..]
    {
      hide RetireRead;
      RetireReadTouches(model);
      var cmd := readDmaIssueQ[0];
      readDmaIssueQ := readDmaIssueQ[1..];
      DmabufPut(cmdMem[cmd].buf);
      DelCmd(cmd);
      model := RetireRead(model);
    }

    method RetireReadLoop()
      requires Sync() && tx == {}
      modifies this`readDmaIssueQ, this`cmdPoolQ, this`dmaBufList, this`model
      ensures Sync() && model == RetireAll(old(model))
    {
      hide RetireRead, RetireAll;
      while readDmaIssueQ != []
        invariant Sync() && RetireAll(model) == RetireAll(old(model))
        decreases |readDmaIssueQ|
      {
        ghost var s := model;
        RetireHeadRead();
        RetireUnfolds(s);
      }
      RetireUnfolds(model);
    }

    method HilProcessDmadone()
      requires Sync() && EngineOk()
      modifies this`writeDmaIssueQ, this`ftlWaitQ, this`readDmaIssueQ, this`cmdPoolQ, this`dmaBufList, this`rx, this`tx,
               this`model, engine, engine.rx, engine.tx
      ensures Sync() && EngineOk() && model == Dmadone(old(model))
    {
      hide PassAll, RetireAll;
      if writeDmaIssueQ != [] {
        engine.CheckAutoDone(engine.rx);
        AllArrived();
        PassWrittenLoop();
      }
      if readDmaIssueQ != [] {
        engine.CheckAutoDone(engine.tx);
        AllLeft();
        RetireReadLoop();
      }
    }

    /** Hands one receive descriptor to the engine, once it has room: block is what the host will send. */
    method SetAutoRxDma(b: BufId, ghost block: Block)
      requires EngineOk()
      modifies this`rx, engine, engine.rx, engine.tx
      ensures EngineOk() && rx == old(rx)[b := block] && engine.rx.issued == old(engine.rx.issued) + 1
    {
      engine.SetAutoDma(engine.rx);
      rx := rx[b := block];
    }

    method SetAutoTxDma(b: BufId)
      requires EngineOk()
      modifies this`tx, engine, engine.rx, engine.tx
      ensures EngineOk() && tx == old(tx) + {b} && engine.tx.issued == old(engine.tx.issued) + 1
    {
      engine.SetAutoDma(engine.tx);
      tx := tx + {b};
    }

    /** The descriptors of one write, block by block along its ring. */
    method IssueRxBlocks(buf: seq<BufId>, ghost payload: seq<Block>, nblock: nat)
      requires EngineOk() && |buf| == |payload| == nblock
      modifies this`rx, engine, engine.rx, engine.tx
      ensures EngineOk() && rx == old(rx) + RxUpTo(buf, payload, nblock) && engine.rx.issued == old(engine.rx.issued) + nblock
    {
      ghost var was := rx;
      assert was == was + map[];
      for i := 0 to nblock
        invariant EngineOk() && rx == was + RxUpTo(buf, payload, i) && engine.rx.issued == old(engine.rx.issued) + i
      {
        AddOne(was, RxUpTo(buf, payload, i), buf[i], payload[i]);
        SetAutoRxDma(buf[i], payload[i]);
      }
    }

    method IssueTxBlocks(buf: seq<BufId>, nblock: nat)
      requires EngineOk() && |buf| == nblock
      modifies this`tx, engine, engine.rx, engine.tx
      ensures EngineOk() && tx == old(tx) + (set b: BufId | b in buf) && engine.tx.issued == old(engine.tx.issued) + nblock
    {
      ghost var was := tx;
      for i := 0 to nblock
        invariant EngineOk() && tx == was + (set b: BufId | b in buf[..i]) && engine.tx.issued == old(engine.tx.issued) + i
      {
        assert buf[..i + 1] == buf[..i] + [buf[i]];
        SetAutoTxDma(buf[i]);
      }
      assert buf[..nblock] == buf;
    }

    /** The descriptors are issued, the command goes on. */
    method PassIssuedRx(cmd: CmdId)
      requires CanIssueRx(model) && cmd == model.q.wWait[0]
      requires Shows(model.(rx := model.rx + Descriptors(model, cmd)))
      modifies this`writeDmaWaitQ, this`writeDmaIssueQ, this`model
      ensures Sync() && model == IssueRx(old(model)) && writeDmaWaitQ == old(writeDmaWaitQ)[1..]
    {
      hide IssueRx, Descriptors;
      IssueRxTouches(model);
      writeDmaWaitQ := writeDmaWaitQ[1..];
      writeDmaIssueQ := writeDmaIssueQ + [cmd];
      model := IssueRx(model);
    }

    /** The loop body of the first loop of hil_process_dmawait. */
    method IssueHeadRx()
      requires Sync() && EngineOk() && Inv(model) && CanIssueRx(model)
      modifies this`writeDmaWaitQ, this`writeDmaIssueQ, this`rx, this`model, engine, engine.rx, engine.tx
      ensures Sync() && EngineOk() && model == IssueRx(old(model)) && writeDmaWaitQ == old(writeDmaWaitQ)[1..]
    {
      hide EngineOk, Inv, IssueRx, Descriptors, RxUpTo;
      var cmd := writeDmaWaitQ[0];
      DescriptorsUpTo(model);
      IssueRxBlocks(cmdMem[cmd].buf, model.note[cmd].payload, cmdMem[cmd].nblock);
      PassIssuedRx(cmd);
    }

    method IssueRxLoop()
      requires Sync() && EngineOk() && Inv(model)
      modifies this`writeDmaWaitQ, this`writeDmaIssueQ, this`rx, this`model, engine, engine.rx, engine.tx
      ensures Sync() && EngineOk() && model == IssueRxAll(old(model))
    {
      hide EngineOk, Inv, IssueRx, IssueRxAll;
      while writeDmaWaitQ != []
        invariant Sync() && EngineOk() && Inv(model) && IssueRxAll(model) == IssueRxAll(old(model))
        decreases |writeDmaWaitQ|
      {
        IssueRxUnfolds(model);
        if |writeDmaIssueQ| >= QUEUE_CAPACITY {
          return;
        }
        IssueRxKeeps(model);
        IssueHeadRx();
      }
      IssueRxUnfolds(model);
    }

    method PassIssuedTx(cmd: CmdId)
      requires CanIssueTx(model) && cmd == model.q.rWait[0]
      requires Shows(model.(tx := model.tx + (set b: BufId | b in model.cmds[cmd].buf)))
      modifies this`readDmaWaitQ, this`readDmaIssueQ, this`model
      ensures Sync() && model == IssueTx(old(model)) && readDmaWaitQ == old(readDmaWaitQ)[1..]
    {
      hide IssueTx;
      IssueTxTouches(model);
      readDmaWaitQ := readDmaWaitQ[1..];
      readDmaIssueQ := readDmaIssueQ + [cmd];
      model := IssueTx(model);
    }

    /** The loop body of the second loop. */
    method IssueHeadTx()
      requires Sync() && EngineOk() && Inv(model) && CanIssueTx(model)
      modifies this`readDmaWaitQ, this`readDmaIssueQ, this`tx, this`model, engine, engine.rx, engine.tx
      ensures Sync() && EngineOk() && model == IssueTx(old(model)) && readDmaWaitQ == old(readDmaWaitQ)[1..]
    {
      hide EngineOk, Inv, IssueTx;
      var cmd := readDmaWaitQ[0];
      HeadReady(model, InRWait);
      IssueTxBlocks(cmdMem[cmd].buf, cmdMem[cmd].nblock);
      PassIssuedTx(cmd);
    }

    method IssueTxLoop()
      requires Sync() && EngineOk() && Inv(model)
      modifies this`readDmaWaitQ, this`readDmaIssueQ, this`tx, this`model, engine, engine.rx, engine.tx
      ensures Sync() && EngineOk() && model == IssueTxAll(old(model))
    {
      hide EngineOk, Inv, IssueTx, IssueTxAll;
      while readDmaWaitQ != []
        invariant Sync() && EngineOk() && Inv(model) && IssueTxAll(model) == IssueTxAll(old(model))
        decreases |readDmaWaitQ|
      {
        IssueTxUnfolds(model);
        if |readDmaIssueQ| >= QUEUE_CAPACITY {
          return;
        }
        IssueTxKeeps(model);
        IssueHeadTx();
      }
      IssueTxUnfolds(model);
    }

    method HilProcessDmawait()
      requires Sync() && EngineOk() && Inv(model)
      modifies this`writeDmaWaitQ, this`writeDmaIssueQ, this`readDmaWaitQ, this`readDmaIssueQ, this`rx, this`tx, this`model,
               engine, engine.rx, engine.tx
      ensures Sync() && EngineOk() && model == Dmawait(old(model))
    {
      hide Inv, IssueRxAll, IssueTxAll;
      IssueRxAllKeeps(model);
      IssueRxLoop();
      IssueTxLoop();
    }

    /** The first half of the loop body of hil_process_init: false when the buffers run short. */
    method GiveBuffers(cmd: CmdId) returns (ok: bool)
      requires Sync() && initQ != [] && cmd == initQ[0] && cmdMem[cmd].nblock >= 1
      modifies this`cmdMem, this`dmaBufList, this`model
      ensures Sync() && model == GrabIfNeeded(old(model))
      ensures ok <==> cmdMem[cmd].buf != []
    {
      hide Grab;
      if cmdMem[cmd].buf == [] {
        var buf := DmabufGet(cmdMem[cmd].nblock);
        if buf == [] {
          return false;
        }
        GrabTouches(model);
        cmdMem := cmdMem[cmd := cmdMem[cmd].(buf := buf)];
        model := Grab(model);
      }
      return true;
    }

    /** The second half: false when the next queue is full. */
    method PassOn(cmd: CmdId) returns (ok: bool)
      requires Sync() && initQ != [] && cmd == initQ[0] && cmdMem[cmd].buf != []
      modifies this`initQ, this`ftlWaitQ, this`writeDmaWaitQ, this`model
      ensures Sync() && ok == CanPassInit(old(model))
      ensures model == if ok then PassInit(old(model)) else old(model)
    {
      hide PassInit;
      if cmdMem[cmd].typ == Rd {
        if |ftlWaitQ| >= QUEUE_CAPACITY {
          return false;
        }
        PassInitTouches(model);
        ftlWaitQ := ftlWaitQ + [cmd];
      } else {
        if |writeDmaWaitQ| >= QUEUE_CAPACITY {
          return false;
        }
        PassInitTouches(model);
        writeDmaWaitQ := writeDmaWaitQ + [cmd];
      }
      initQ := initQ[1..];
      model := PassInit(model);
      return true;
    }

    method HilProcessInit()
      requires Sync() && Inv(model)
      modifies this`initQ, this`ftlWaitQ, this`writeDmaWaitQ, this`cmdMem, this`dmaBufList, this`model
      ensures Sync() && model == InitAll(old(model))
    {
      hide Inv, GrabIfNeeded, CanPassInit, PassInit, InitAll;
      while initQ != []
        invariant Sync() && Inv(model) && InitAll(model) == InitAll(old(model))
        decreases |initQ|
      {
        var cmd := initQ[0];
        InitAllUnfolds(model);
        var ok := GiveBuffers(cmd);
        if !ok {
          InitAllEmpty(model);
          return;
        }
        ok := PassOn(cmd);
        if !ok {
          return;
        }
      }
      InitAllEmpty(model);
    }

    method HilRun(see: NvmeSight)
      requires Sync() && RingOk() && EngineOk() && Inv(model) && ValidArrival(Arrival(nvmeTask, see))
      modifies this`cmdPoolQ, this`initQ, this`cmdMem, this`model, this`nvmeTask, this`doneQ, this`dmaBufList,
               this`writeDmaWaitQ, this`writeDmaIssueQ, this`readDmaWaitQ, this`readDmaIssueQ, this`ftlWaitQ,
               this`rx, this`tx, doneRing, engine, engine.rx, engine.tx
      ensures Sync() && RingOk() && EngineOk() && model == Schedule.HilRun(old(model), Arrival(old(nvmeTask), see))
      ensures nvmeTask == NextTask(old(nvmeTask), see)
    {
      hide Shows, RingOk, EngineOk, Inv, DoneqAll, Dmadone, Dmawait, InitAll, Schedule.NvmeRun, Arrival, NextTask;
      RealTimeOrder.NvmeRunKeeps(model, Arrival(nvmeTask, see));
      NvmeRun(see);
      DoneqAllKeeps(model);
      HilProcessDoneq();
      DmadoneKeeps(model);
      HilProcessDmadone();
      DmawaitKeeps(model);
      HilProcessDmawait();
      HilProcessInit();
    }

    // ---------------------------------------------------------------- ftl.c

    /** A read copies its addresses out of the table. */
    method MapRead(cmd: CmdId, ghost s: State)
      requires CanMap(s) && cmd == s.q.ftlWait[0] && cmdMem == s.cmds && l2pTable == s.l2p && s.cmds[cmd].typ == Rd
      requires |cmdMem[cmd].buf| == cmdMem[cmd].nblock && NoDup(cmdMem[cmd].buf)
      modifies this`bufAddr
      ensures bufAddr == Given(old(bufAddr), cmdMem[cmd].buf, NewAddrs(s))
    {
      hide Given;
      var buf, lba := cmdMem[cmd].buf, cmdMem[cmd].lba;
      ghost var was := bufAddr;
      for i := 0 to cmdMem[cmd].nblock
        invariant forall k :: 0 <= k < i ==> bufAddr[buf[k]] == NewAddr(s, k)
        invariant forall b: BufId :: b !in buf ==> bufAddr[b] == was[b]
      {
        bufAddr := bufAddr[buf[i] := l2pTable[lba + i]];
      }
      GivenIs(was, bufAddr, buf, NewAddrs(s));
    }

    /** The nested ifs of ftl_process_q; false when the assert fails. */
    method AdvanceCounters() returns (ok: bool)
      modifies this`iCh, this`iWay, this`iPage, this`iBlock
      ensures ok <==> Bump(old(Counters(iCh, iWay, iPage, iBlock))).Some?
      ensures ok ==> Some(Counters(iCh, iWay, iPage, iBlock)) == Bump(old(Counters(iCh, iWay, iPage, iBlock)))
    {
      iCh := iCh + 1;
      if iCh >= USER_CHANNELS {
        iCh := 0;
        iWay := iWay + 1;
        if iWay >= USER_WAYS {
          iWay := 0;
          iPage := iPage + 1;
          if iPage >= PAGES_PER_BLOCK {
            iPage := 0;
            iBlock := iBlock + 1;
            if iBlock >= BLOCK_LIMIT {
              return false;
            }
          }
        }
      }
      return true;
    }

    /** A write takes the next pages of the log, block by block: table entry, counters, buffer.
        It stops at the FTL's assert exactly when the log would run out. */
    method MapWrite(cmd: CmdId, ghost n: nat) returns (ok: bool)
      requires cmdMem[cmd].lba + cmdMem[cmd].nblock <= HOST_BLOCK_CNT
      requires |cmdMem[cmd].buf| == cmdMem[cmd].nblock && NoDup(cmdMem[cmd].buf)
      requires n < WRITE_LIMIT && Counters(iCh, iWay, iPage, iBlock) == Digits(n)
      modifies this`l2pTable, this`bufAddr, this`iCh, this`iWay, this`iPage, this`iBlock
      ensures ok <==> n + cmdMem[cmd].nblock < WRITE_LIMIT
      ensures ok ==>
        && Counters(iCh, iWay, iPage, iBlock) == Digits(n + cmdMem[cmd].nblock)
        && l2pTable == Remapped(old(l2pTable), cmdMem[cmd].lba, cmdMem[cmd].nblock, n)
        && bufAddr == Given(old(bufAddr), cmdMem[cmd].buf, LogAddrs(n, cmdMem[cmd].nblock))
    {
      hide Digits, AddrOf, Bump, Pack, Given;
      var buf, lba := cmdMem[cmd].buf, cmdMem[cmd].lba;
      ghost var table, addrs := l2pTable, bufAddr;
      for i := 0 to cmdMem[cmd].nblock
        invariant n + i < WRITE_LIMIT && Counters(iCh, iWay, iPage, iBlock) == Digits(n + i)
        invariant forall x: nat :: x < 16777216 ==> l2pTable[x] == RemappedEntry(table, lba, i, n, x)
        invariant forall k :: 0 <= k < i ==> bufAddr[buf[k]] == AddrOf(n + k)
        invariant forall b: BufId :: b !in buf ==> bufAddr[b] == addrs[b]
      {
        BumpFrom(n + i);
        l2pTable := l2pTable[lba + i := Pack(iCh, iWay, iBlock, iPage)];
        ok := AdvanceCounters();
        if !ok {
          return false;
        }
        bufAddr := bufAddr[buf[i] := l2pTable[lba + i]];
      }
      GivenIs(addrs, bufAddr, buf, LogAddrs(n, cmdMem[cmd].nblock));
      return true;
    }

    /** The addresses of the command at the head of ftl_wait_q, when it is a read. */
    method MapHeadRead(cmd: CmdId, ghost s: State)
      requires Inv(s) && s.q.ftlWait != [] && cmd == s.q.ftlWait[0] && |s.q.nandWait| < QUEUE_CAPACITY
      requires cmdMem == s.cmds && l2pTable == s.l2p && bufAddr == s.bufAddr && s.cmds[cmd].typ == Rd
      modifies this`bufAddr
      ensures CanMap(s) && !Exhausted(s) && bufAddr == MapCmd(s).bufAddr && s.l2p == MapCmd(s).l2p && s.ctr == MapCmd(s).ctr
    {
      hide Inv, Digits, Given, NewAddrs, MapCmd, CanMap, Exhausted;
      HeadMapped(s);
      MapCmdRead(s);
      MapRead(cmd, s);
    }

    /** The same when it is a write; false when the assert fails. */
    method MapHeadWrite(cmd: CmdId, ghost s: State) returns (ok: bool)
      requires Inv(s) && s.q.ftlWait != [] && cmd == s.q.ftlWait[0] && |s.q.nandWait| < QUEUE_CAPACITY
      requires cmdMem == s.cmds && l2pTable == s.l2p && bufAddr == s.bufAddr && s.cmds[cmd].typ == Wr
      requires Counters(iCh, iWay, iPage, iBlock) == s.ctr
      modifies this`l2pTable, this`bufAddr, this`iCh, this`iWay, this`iPage, this`iBlock
      ensures ok == CanMap(s) == !Exhausted(s)
      ensures ok ==> bufAddr == MapCmd(s).bufAddr && l2pTable == MapCmd(s).l2p
      ensures ok ==> Counters(iCh, iWay, iPage, iBlock) == MapCmd(s).ctr
    {
      hide Inv, Digits, Given, Remapped, MapCmd, CanMap, Exhausted, LogAddrs;
      HeadMapped(s);
      if CanMap(s) {
        MapCmdWrite(s);
      }
      ok := MapWrite(cmd, |s.log|);
    }

    /** ftl_process_q; false when its assert fails, which is when the log is used up. */
    method FtlProcessQ() returns (ok: bool)
      requires Sync() && Inv(model)
      modifies this`ftlWaitQ, this`nandWaitQ, this`bufAddr, this`l2pTable, this`iCh, this`iWay, this`iPage, this`iBlock, this`model
      ensures ok <==> !(Exhausted(old(model)) && |old(nandWaitQ)| < QUEUE_CAPACITY)
      ensures ok ==> Sync() && model == FtlRun(old(model))
    {
      hide Inv, MapCmd, CanMap, Exhausted;
      FtlIdle(model);
      if ftlWaitQ != [] && |nandWaitQ| < QUEUE_CAPACITY {
        var cmd := ftlWaitQ[0];
        if cmdMem[cmd].typ == Rd {
          MapHeadRead(cmd, model);
          ok := true;
        } else {
          ok := MapHeadWrite(cmd, model);
        }
        if ok {
          PassMapped(cmd);
        }
        return;
      }
      return true;
    }

    /** The command goes on to nand_wait_q, and the model follows. */
    method PassMapped(cmd: CmdId)
      requires CanMap(model) && cmd == model.q.ftlWait[0]
      requires var t := MapCmd(model); Shows(model.(bufAddr := t.bufAddr, l2p := t.l2p, ctr := t.ctr))
      modifies this`ftlWaitQ, this`nandWaitQ, this`model
      ensures Sync() && model == MapCmd(old(model))
    {
      hide MapCmd;
      MapCmdTouches(model);
      ftlWaitQ := ftlWaitQ[1..];
      nandWaitQ := nandWaitQ + [cmd];
      model := MapCmd(model);
    }

    // ---------------------------------------------------------------- fil.c

    /** fil_add_req. The C code does not look at what new_req returns; the caller has shown that it
        is not NULL. */
    method FilAddReq(op: Op, ghost f: RQ.Fil)
      requires reqPoolQ != [] && f.reqPool == reqPoolQ && f.queues == requestQ
      modifies this`reqPoolQ, this`requestQ
      ensures RQ.Enqueue(f, op).reqPool == reqPoolQ && RQ.Enqueue(f, op).queues == requestQ
    {
      var req := NewReq();
      var w := WayOf(op.addr);
      requestQ := requestQ[w := requestQ[w] + [Req(req.value, op)]];
    }

    /** The read branch of fil_process_wait: blocks never written count as done at once. */
    method AddReads(c: CmdId, ghost f: RQ.Fil)
      requires f.reqPool == reqPoolQ && f.queues == requestQ && cmdMem[c].nblock == |cmdMem[c].buf|
      requires |CmdOps(c, Rd, cmdMem[c].buf, bufAddr)| <= |f.reqPool|
      modifies this`reqPoolQ, this`requestQ, this`cmdMem
      ensures var g := RQ.EnqueueAll(f, CmdOps(c, Rd, old(cmdMem[c].buf), bufAddr)); g.reqPool == reqPoolQ && g.queues == requestQ
      ensures cmdMem == old(cmdMem)[c := old(cmdMem[c]).(ndone := old(cmdMem[c].ndone) + Unmapped(old(cmdMem[c].buf), bufAddr))]
    {
      hide RQ.EnqueueAll, CmdOps, Unmapped, RQ.Enqueue;
      ghost var was := cmdMem;
      var buf, nblock := cmdMem[c].buf, cmdMem[c].nblock;
      FanOutNone(f, c, Rd, buf, bufAddr);
      for i := 0 to nblock
        invariant |CmdOps(c, Rd, buf[..i], bufAddr)| <= |f.reqPool|
        invariant RQ.EnqueueAll(f, CmdOps(c, Rd, buf[..i], bufAddr)).reqPool == reqPoolQ
        invariant RQ.EnqueueAll(f, CmdOps(c, Rd, buf[..i], bufAddr)).queues == requestQ
        invariant cmdMem == was[c := was[c].(ndone := was[c].ndone + Unmapped(buf[..i], bufAddr))]
      {
        FanOutBlock(f, c, Rd, buf, bufAddr, i);
        CmdOpsSnoc(c, Rd, buf, bufAddr, i);
        if !bufAddr[buf[i]].valid {
          cmdMem := cmdMem[c := cmdMem[c].(ndone := cmdMem[c].ndone + 1)];
        } else {
          FilAddReq(Op(ReadOp, bufAddr[buf[i]], c, buf[i]), RQ.EnqueueAll(f, CmdOps(c, Rd, buf[..i], bufAddr)));
        }
      }
      assert buf[..nblock] == buf;
    }

    /** The write branch: the first page of a block is preceded by the erase of the block. */
    method AddWrites(c: CmdId, ghost f: RQ.Fil)
      requires f.reqPool == reqPoolQ && f.queues == requestQ && cmdMem[c].nblock == |cmdMem[c].buf|
      requires |CmdOps(c, Wr, cmdMem[c].buf, bufAddr)| <= |f.reqPool|
      modifies this`reqPoolQ, this`requestQ
      ensures var g := RQ.EnqueueAll(f, CmdOps(c, Wr, cmdMem[c].buf, bufAddr)); g.reqPool == reqPoolQ && g.queues == requestQ
    {
      hide RQ.EnqueueAll, CmdOps, Unmapped;
      var buf, nblock := cmdMem[c].buf, cmdMem[c].nblock;
      FanOutNone(f, c, Wr, buf, bufAddr);
      for i := 0 to nblock
        invariant |CmdOps(c, Wr, buf[..i], bufAddr)| <= |f.reqPool|
        invariant RQ.EnqueueAll(f, CmdOps(c, Wr, buf[..i], bufAddr)).reqPool == reqPoolQ
        invariant RQ.EnqueueAll(f, CmdOps(c, Wr, buf[..i], bufAddr)).queues == requestQ
      {
        FanOutBlock(f, c, Wr, buf, bufAddr, i);
        ghost var g := RQ.EnqueueAll(f, CmdOps(c, Wr, buf[..i], bufAddr));
        var addr := bufAddr[buf[i]];
        if addr.page == 0 {
          FilAddReq(Op(EraseOp, addr, c, buf[i]), g);
          g := RQ.Enqueue(g, Op(EraseOp, addr, c, buf[i]));
        }
        FilAddReq(Op(ProgramOp, addr, c, buf[i]), g);
      }
      assert buf[..nblock] == buf;
    }

    /** The requests of the command at the head of nand_wait_q, when it is a read. */
    method AddReadRequests(cmd: CmdId)
      requires Sync() && Inv(model) && nandWaitQ != [] && cmd == nandWaitQ[0] && cmdMem[cmd].typ == Rd
      modifies this`cmdMem, this`reqPoolQ, this`requestQ, this`model
      ensures CanFanOut(old(model))
      ensures var t := FanOut(old(model)); Sync() && model == old(model).(fil := t.fil, cmds := t.cmds)
    {
      hide Inv, CanFanOut, FanOut, RQ.EnqueueAll, CmdOps, Unmapped;
      FanOutAdds(model);
      AddReads(cmd, model.fil);
      model := model.(fil := FanOut(model).fil, cmds := FanOut(model).cmds);
    }

    method AddWriteRequests(cmd: CmdId)
      requires Sync() && Inv(model) && nandWaitQ != [] && cmd == nandWaitQ[0] && cmdMem[cmd].typ == Wr
      modifies this`reqPoolQ, this`requestQ, this`model
      ensures CanFanOut(old(model))
      ensures var t := FanOut(old(model)); Sync() && model == old(model).(fil := t.fil, cmds := t.cmds)
    {
      hide Inv, CanFanOut, FanOut, RQ.EnqueueAll, CmdOps, Unmapped;
      FanOutAdds(model);
      AddWrites(cmd, model.fil);
      model := model.(fil := FanOut(model).fil, cmds := FanOut(model).cmds);
    }

    /** The push onto read_dma_wait_q is not guarded in the C code; it needs no guard. */
    method PassFannedOut(cmd: CmdId, ghost s: State)
      requires CanFanOut(s) && Sync() && cmd == s.q.nandWait[0] && |readDmaWaitQ| < QUEUE_CAPACITY
      requires model == s.(fil := FanOut(s).fil, cmds := FanOut(s).cmds)
      requires s.cmds[cmd].typ == Wr ==> s.cmds[cmd].ndone == 0
      modifies this`nandWaitQ, this`readDmaWaitQ, this`model
      ensures Sync() && model == FanOut(s)
    {
      hide FanOut, RQ.EnqueueAll, CmdOps, Unmapped;
      FanOutTouches(s);
      if cmdMem[cmd].typ == Rd && cmdMem[cmd].ndone == cmdMem[cmd].nblock {
        assert |readDmaWaitQ| < QUEUE_CAPACITY;
        readDmaWaitQ := readDmaWaitQ + [cmd];
      }
      nandWaitQ := nandWaitQ[1..];
      model := FanOut(s);
    }

    method FilProcessWait()
      requires Sync() && Inv(model) && |readDmaWaitQ| < QUEUE_CAPACITY
      modifies this`nandWaitQ, this`readDmaWaitQ, this`cmdMem, this`reqPoolQ, this`requestQ, this`model
      ensures Sync() && model == ProcessWait(old(model))
    {
      hide Inv, FanOut;
      if nandWaitQ != [] {
        ghost var s := model;
        HeadReady(model, InNandWait);
        var cmd := nandWaitQ[0];
        if cmdMem[cmd].typ == Rd {
          AddReadRequests(cmd);
        } else {
          AddWriteRequests(cmd);
        }
        PassFannedOut(cmd, s);
      }
    }

    /** Every read or program of the command is done. */
    method PassDone(cmd: CmdId)
      requires Sync() && RingOk() && |readDmaWaitQ| < QUEUE_CAPACITY && |doneQ| < QUEUE_CAPACITY
      modifies this`readDmaWaitQ, this`doneQ, this`model, doneRing, doneRing.arr
      ensures Sync() && RingOk() && model == old(model).(q := PassedDone(old(model.q), cmdMem[cmd].typ, cmd))
    {
      if cmdMem[cmd].typ == Rd {
        assert |readDmaWaitQ| < QUEUE_CAPACITY;
        readDmaWaitQ := readDmaWaitQ + [cmd];
      } else {
        assert !doneRing.Full();
        doneRing.PushTail(cmd);
        doneQ := doneQ + [cmd];
      }
      model := model.(q := PassedDone(model.q, cmdMem[cmd].typ, cmd));
    }

    /** A read or program of the command is done; the last one passes the command on. */
    method CountDone(cmd: CmdId)
      requires Sync() && RingOk() && |readDmaWaitQ| < QUEUE_CAPACITY && |doneQ| < QUEUE_CAPACITY
      modifies this`readDmaWaitQ, this`doneQ, this`cmdMem, this`model, doneRing, doneRing.arr
      ensures Sync() && RingOk() && model == CountedOnce(old(model), cmd)
    {
      hide PassedDone;
      cmdMem := cmdMem[cmd := cmdMem[cmd].(ndone := cmdMem[cmd].ndone + 1)];
      model := model.(cmds := cmdMem);
      if cmdMem[cmd].ndone >= cmdMem[cmd].nblock {
        PassDone(cmd);
      }
    }

    /** list_del and del_req of the first request of a way. */
    method FreeHead(w: WayId)
      requires Sync() && requestQ[w] != []
      modifies this`reqPoolQ, this`requestQ, this`model
      ensures Sync() && model == old(model).(fil := RQ.Dequeue(old(model.fil), w))
    {
      var req := requestQ[w][0];
      requestQ := requestQ[w := requestQ[w][1..]];
      reqPoolQ := reqPoolQ + [req.id];
      model := model.(fil := RQ.Dequeue(model.fil, w));
    }

    /** What fil_process_nand does once the NAND driver reports DONE. */
    method FinishHead(w: WayId)
      requires Sync() && RingOk() && requestQ[w] != [] && CanFinish(model, w)
      requires |readDmaWaitQ| < QUEUE_CAPACITY && |doneQ| < QUEUE_CAPACITY
      modifies this`readDmaWaitQ, this`doneQ, this`cmdMem, this`reqPoolQ, this`requestQ, this`model, doneRing, doneRing.arr
      ensures Sync() && RingOk() && model == Finish(old(model), w)
    {
      hide RingOk, CanFinish, Finish, CountedOnce, RQ.Dequeue;
      FinishTouches(model, w);
      ghost var s := model;
      var req := requestQ[w][0];
      if req.op.kind != EraseOp {
        CountDone(req.op.cmd);
      }
      FreeHead(w);
      model := Finish(s, w);
    }

    /** One iteration of the inner loop of fil_process_nand: the driver of the way is called for its
        first request. */
    method PollWay(w: WayId, env: NW.Env)
      requires Sync() && RingOk() && Inv(model) && |readDmaWaitQ| < QUEUE_CAPACITY && |doneQ| < QUEUE_CAPACITY
      requires DriversOk() && drivers[w].way.queue == RQ.Ops(requestQ[w])
      modifies this`readDmaWaitQ, this`doneQ, this`cmdMem, this`reqPoolQ, this`requestQ, this`model,
               drivers[w], doneRing, doneRing.arr
      ensures Sync() && RingOk() && DriversOk() && NW.CanHappen(old(drivers[w].way), NW.Polled(env))
      ensures drivers[w].way == NW.Happen(old(drivers[w].way), NW.Polled(env))
      ensures old(Finished(drivers[w].way, env)) ==> old(CanFinish(model, w))
      ensures model == if old(Finished(drivers[w].way, env)) then Finish(old(model), w) else old(model)
    {
      hide Inv, Disciplined, Finish, NW.Call, NW.Good;
      if requestQ[w] == [] {
        return;
      }
      AlwaysDisciplined(model, w);
      var done := drivers[w].Look(requestQ[w][0].op, env);
      if done {
        FinishHead(w);
      }
    }

    /** One look is one event of pipeline and drivers together. */
    method PollNext(i: nat, j: nat, ghost s: State, ghost ways: Ways, envs: NandEnvs)
      requires i < USER_CHANNELS && j < USER_WAYS
      requires Sync() && RingOk() && DriversOk() && Joint(System()) && |s.q.rWait| + |s.q.done| <= 1
      requires System() == Coupled(PollUpTo(s, Answers(ways, envs), 8 * i + j), LookedUpTo(ways, envs, 8 * i + j))
      modifies this`readDmaWaitQ, this`doneQ, this`cmdMem, this`reqPoolQ, this`requestQ, this`model,
               drivers, doneRing, doneRing.arr
      ensures Sync() && RingOk() && DriversOk() && Joint(System())
      ensures System() == Coupled(PollUpTo(s, Answers(ways, envs), 8 * i + j + 1), LookedUpTo(ways, envs, 8 * i + j + 1))
    {
      hide Shows, RingOk, NW.Driver.InOrder, Inv, WayAt, PollUpTo, LookedUpTo, Answers, Finish, CanFinish, NW.Happen, NW.CanHappen, NW.Good, Finished;
      var w: WayId := 8 * j + i;
      LooksAt(i, j);
      PollUpToQueues(s, Answers(ways, envs), 8 * i + j);
      LookIsEvent(s, ways, envs, 8 * i + j);
      NextKeeps(System(), Polled(w, envs[w]));
      ghost var before := History();
      QueuesShown();
      PollWay(w, envs[w]);
      assert History() == before[w := NW.Happen(before[w], NW.Polled(envs[w]))];
    }

    method FilProcessNand(envs: NandEnvs)
      requires Sync() && RingOk() && DriversOk() && Joint(System()) && |readDmaWaitQ| + |doneQ| <= 1
      modifies this`readDmaWaitQ, this`doneQ, this`cmdMem, this`reqPoolQ, this`requestQ, this`model,
               drivers, doneRing, doneRing.arr
      ensures Sync() && RingOk() && DriversOk() && Joint(System())
      ensures model == PollUpTo(old(model), Answers(old(History()), envs), 64)
      ensures History() == LookedUpTo(old(History()), envs, 64)
    {
      hide Shows, RingOk, NW.Driver.InOrder, Joint, PollUpTo, LookedUpTo, Answers;
      QueuesShown();
      ghost var s, ways := model, History();
      NotPolledYet(s, ways, envs);
      for i := 0 to USER_CHANNELS
        invariant Sync() && RingOk() && DriversOk() && Joint(System())
        invariant System() == Coupled(PollUpTo(s, Answers(ways, envs), 8 * i), LookedUpTo(ways, envs, 8 * i))
      {
        for j := 0 to USER_WAYS
          invariant Sync() && RingOk() && DriversOk() && Joint(System())
          invariant System() == Coupled(PollUpTo(s, Answers(ways, envs), 8 * i + j), LookedUpTo(ways, envs, 8 * i + j))
        {
          PollNext(i, j, s, ways, envs);
        }
      }
    }

    /** The requests fil_process_wait has listed are the drivers' to serve. */
    ghost method TellDrivers(s: State)
      requires DriversOk() && Joint(Coupled(s, History())) && model == ProcessWait(s)
      modifies drivers
      ensures DriversOk() && System() == Coupled(ProcessWait(s), AskedAll(s, old(History()))) && Joint(System())
    {
      hide Inv, InStep, ProcessWait, NW.Good, NW.ValidOp;
      ghost var ways := History();
      AskedAllKeeps(Coupled(s, ways));
      if CanFanOut(s) {
        for w := 0 to 64
          invariant DriversOk()
          invariant forall v :: 0 <= v < 64 ==>
            drivers[v].way == if v < w then NW.Extended(ways[v], RQ.Pick(Added(s), v)) else ways[v]
        {
          AddedValid(Coupled(s, ways), w);
          drivers[w].Ask(RQ.Pick(Added(s), w));
        }
        assert History() == AskedAll(s, ways);
      }
    }

    method FilRun(envs: NandEnvs)
      requires Sync() && RingOk() && DriversOk() && Joint(System()) && readDmaWaitQ == [] && doneQ == []
      modifies this`nandWaitQ, this`readDmaWaitQ, this`doneQ, this`cmdMem, this`reqPoolQ, this`requestQ, this`model,
               drivers, doneRing, doneRing.arr
      ensures Sync() && RingOk() && DriversOk() && System() == FilRound(old(System()), envs) && Joint(System())
    {
      hide Inv, InStep, ProcessWait, PollUpTo, AskedAll, Answers, LookedUpTo;
      ghost var s := model;
      ProcessWaitQueues(s);
      FilProcessWait();
      TellDrivers(s);
      FilProcessNand(envs);
    }

    // ---------------------------------------------------------------- main.c

    /** At any point the engine may complete transfers on its own. */
    ghost method EngineRuns(bs: seq<BufId>)
      requires Sync()
      modifies this`rx, this`tx, this`model
      ensures Sync() && model == Transfers(old(model), bs)
    {
      hide Transfers;
      TransfersTouch(model, bs);
      model := Transfers(model, bs);
      rx, tx := model.rx, model.tx;
    }

    /** A round up to fil_run; false when the FTL's assert ended it. */
    method RunToFil(e: Env, see: NvmeSight) returns (ok: bool)
      requires Sync() && RingOk() && EngineOk() && Inv(model) && Bounded(model.q)
      requires ValidArrival(e.arrival) && e.arrival == Arrival(nvmeTask, see)
      modifies this, doneRing, engine, engine.rx, engine.tx
      ensures ok <==> !LogEnds(old(model), e)
      ensures ok ==> Sync() && RingOk() && EngineOk() && model == AtFil(old(model), e) && readDmaWaitQ == [] && doneQ == []
      ensures nvmeTask == NextTask(old(nvmeTask), see)
    {
      hide Shows, RingOk, EngineOk, Inv, Schedule.HilRun, FtlRun, Transfers, Exhausted, Bounded, Arrival, NextTask;
      RoundQueues(model, e);
      RoundPoints(model, e);
      EngineRuns(e.beforeHil);
      HilRun(see);
      EngineRuns(e.beforeFtl);
      QueuesShown();
      ok := FtlProcessQ();
      if ok {
        EngineRuns(e.beforeFil);
        QueuesShown();
      }
    }

    /** One round of the main loop; false when the FTL's assert ended it, which is exactly when the
        write to be mapped would use up the log. What the NAND reports is up to the drivers. */
    method Round(e: Env, see: NvmeSight, envs: NandEnvs) returns (ok: bool)
      requires Sync() && PartsOk() && Joint(System()) && Bounded(model.q)
      requires ValidArrival(e.arrival) && e.arrival == Arrival(nvmeTask, see)
      modifies this, drivers, doneRing, doneRing.arr, engine, engine.rx, engine.tx
      ensures ok <==> !LogEnds(old(model), e)
      ensures ok ==> Sync() && PartsOk() && System() == CoupledRound(old(System()), e, envs) && Joint(System())
      ensures ok ==> Bounded(model.q)
      ensures nvmeTask == NextTask(old(nvmeTask), see)
    {
      hide Sync, RingOk, EngineOk, Joint, AtFil, FilRound, LogEnds, Bounded, Played, Arrival, NextTask;
      ghost var j := System();
      JointInv(j);
      OnlyPolls(j, e, envs);
      RoundQueues(model, Played(j, e, envs));
      IsRound(j, e, envs);
      AtFilKeeps(j, e);
      ok := RunToFil(e, see);
      if ok {
        FilRun(envs);
      }
    }

    /** After n rounds everything is where the model says. */
    ghost predicate Reached(envs: seq<Env>, sees: seq<NvmeSight>, nands: seq<NandEnvs>, n: nat)
      requires |sees| == |nands| == |envs| && n <= |envs|
      reads this, drivers, doneRing, doneRing.arr, engine, engine.rx, engine.tx
    {
      && Sync() && PartsOk() && System() == CoupledRounds(envs[..n], nands[..n])
      && Joint(System()) && Bounded(model.q) && nvmeTask == TaskAfter(sees[..n])
    }

    /** The n-th round. */
    method NextRound(envs: seq<Env>, sees: seq<NvmeSight>, nands: seq<NandEnvs>, n: nat) returns (ok: bool)
      requires ValidEnvs(envs) && Fed(envs, sees) && |nands| == |envs| && n < |envs| && Reached(envs, sees, nands, n)
      modifies this, drivers, doneRing, doneRing.arr, engine, engine.rx, engine.tx
      ensures ok <==> !LogEnds(CoupledRounds(envs[..n], nands[..n]).s, envs[n])
      ensures ok ==> Reached(envs, sees, nands, n + 1)
    {
      hide Sync, RingOk, EngineOk, Joint, CoupledRound, CoupledRounds, Begin, LogEnds, Bounded, Arrival, NextTask;
      OneMoreRound(envs, nands, n);
      assert sees[..n + 1][..n] == sees[..n];
      ok := Round(envs[n], sees[n], nands[n]);
    }

    /** The main loop, for any number of rounds and any behaviour of the host, the DMA engine and the
        NAND controllers: pipeline and drivers follow the model, until the log is used up. */
    method Run(envs: seq<Env>, sees: seq<NvmeSight>, nands: seq<NandEnvs>) returns (n: nat)
      requires Sync() && PartsOk() && System() == Begin() && nvmeTask == TASK_IDLE
      requires ValidEnvs(envs) && Fed(envs, sees) && |sees| == |nands| == |envs|
      modifies this, drivers, doneRing, doneRing.arr, engine, engine.rx, engine.tx
      ensures n <= |envs|
      ensures n < |envs| ==> LogEnds(CoupledRounds(envs[..n], nands[..n]).s, envs[n])
      ensures n == |envs| ==> Reached(envs, sees, nands, n)
      ensures forall k :: 0 <= k < n ==> !LogEnds(CoupledRounds(envs[..k], nands[..k]).s, envs[k])
    {
      hide Sync, PartsOk, Joint, CoupledRounds, Begin, LogEnds, Bounded, Fed, ValidEnvs;
      BeginsJoint();
      BeginsBounded();
      NoRoundsYet(envs, nands);
      n := 0;
      assert Reached(envs, sees, nands, 0);
      hide Reached;
      while n < |envs|
        invariant n <= |envs| && Reached(envs, sees, nands, n)
        invariant forall k :: 0 <= k < n ==> !LogEnds(CoupledRounds(envs[..k], nands[..k]).s, envs[k])
      {
        var ok := NextRound(envs, sees, nands, n);
        if !ok {
          return;
        }
        n := n + 1;
      }
    }
  }
}
