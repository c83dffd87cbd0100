/** A run that shows what the mapping table does not promise: the first block ever written, whatever
    its address and contents, is mapped into a block whose erase is carried out afterwards. */
module FirstWrite {
  import opened Base
  import opened NandAddress
  import opened Model
  import opened WayScript
  import RQ = RequestQueues
  import opened Pipeline
  import opened Invariant
  import opened FilFanOut
  import opened FilFinish
  import opened Machine
  import opened TableHistory

  /** The command struct and the buffer at the heads of their pools at the start. */
  const CMD: CmdId := 0
  const BUF: BufId := 0

  function FirstCmd(lba: nat, d: Block): HostCmd {
    HostCmd(0, Wr, lba, 1, [d])
  }

  /** The command's fields, with the given ring. */
  predicate Carries(s: State, lba: nat, d: Block, buf: seq<BufId>) {
    s.cmds[CMD] == Cmd(0, Wr, lba, 1, 0, buf) && s.note[CMD].payload == [d]
  }

  /** The FIL and the FTL have not done anything yet. */
  predicate Untouched(s: State) {
    s.fil == StartFil() && s.log == [] && s.q.nandWait == []
  }

  predicate Fetched(s: State, lba: nat, d: Block) {
    && Untouched(s) && Carries(s, lba, d, []) && s.q.init == [CMD] && s.bufPool == StartBufs()
    && s.q.wWait == [] && s.q.wIssue == [] && s.q.ftlWait == [] && s.rx == map[]
  }

  predicate Grabbed(s: State, lba: nat, d: Block) {
    && Untouched(s) && Carries(s, lba, d, [BUF]) && s.q.init == [CMD]
    && s.q.wWait == [] && s.q.wIssue == [] && s.q.ftlWait == [] && s.rx == map[]
  }

  predicate Waiting(s: State, lba: nat, d: Block) {
    && Untouched(s) && Carries(s, lba, d, [BUF]) && s.q.wWait == [CMD] && s.q.wIssue == [] && s.q.ftlWait == [] && s.rx == map[]
  }

  predicate Issued(s: State, lba: nat, d: Block) {
    && Untouched(s) && Carries(s, lba, d, [BUF]) && s.q.wIssue == [CMD] && s.q.ftlWait == [] && s.rx == map[BUF := d]
  }

  predicate Arrived(s: State, lba: nat, d: Block) {
    && Untouched(s) && Carries(s, lba, d, [BUF]) && s.q.wIssue == [CMD] && s.q.ftlWait == [] && s.rx == map[]
  }

  predicate Entered(s: State, lba: nat, d: Block) {
    && Untouched(s) && Carries(s, lba, d, [BUF]) && s.q.ftlWait == [CMD]
  }

  predicate Mapped(s: State, lba: nat, d: Block)
    requires lba < 16777216
  {
    && s.fil == StartFil() && Carries(s, lba, d, [BUF]) && s.q.nandWait == [CMD]
    && s.bufAddr[BUF] == AddrOf(0) && s.l2p[lba] == AddrOf(0)
  }

  /** The erase of block 50 is the head of way 0, and the table points into that block. */
  predicate EraseNext(s: State, lba: nat)
    requires lba < 16777216
  {
    && s.fil.queues[0] != [] && s.fil.queues[0][0].op == Op(EraseOp, AddrOf(0), CMD, BUF)
    && PointsInto(s.l2p[lba], 0, s.fil.queues[0][0].op.addr.block)
  }

  lemma FetchFirst(lba: nat, d: Block)
    requires lba < HOST_BLOCK_CNT
    ensures Enabled(Start(), FetchStep(FirstCmd(lba, d))) && Fetched(Fetch(Start(), FirstCmd(lba, d)), lba, d)
  {
    hide StartFil, StartBufs, EnteredUids, Uids;
  }

  lemma GrabFirst(s: State, lba: nat, d: Block)
    requires Fetched(s, lba, d)
    ensures CanGrab(s) && Grabbed(Grab(s), lba, d)
  {
    hide StartFil;
    assert StartBufs()[..1] == [BUF];
  }

  lemma PassFirst(s: State, lba: nat, d: Block)
    requires Grabbed(s, lba, d)
    ensures CanPassInit(s) && Waiting(PassInit(s), lba, d)
  {
    hide StartFil;
  }

  lemma IssueFirst(s: State, lba: nat, d: Block)
    requires Waiting(s, lba, d)
    ensures CanIssueRx(s) && Issued(IssueRx(s), lba, d)
  {
    hide StartFil;
    assert IndexOf([BUF], BUF) == 0;
  }

  lemma ArriveFirst(s: State, lba: nat, d: Block)
    requires Issued(s, lba, d)
    ensures BUF in s.rx && Arrived(RxArrive(s, BUF), lba, d)
  {
    hide StartFil;
  }

  lemma EnterFirst(s: State, lba: nat, d: Block)
    requires Arrived(s, lba, d)
    ensures CanPassWritten(s) && Entered(PassWritten(s), lba, d)
  {
    hide StartFil;
  }

  lemma MapFirst(s: State, lba: nat, d: Block)
    requires Entered(s, lba, d) && lba < HOST_BLOCK_CNT
    ensures CanMap(s) && Mapped(MapCmd(s), lba, d)
  {
    hide StartFil, AddrOf, Replay, Digits;
    assert IndexOf([BUF], BUF) == 0;
    assert NewAddrs(s)[0] == AddrOf(0);
    assert MapCmd(s).l2p[lba] == RemappedEntry(s.l2p, lba, 1, 0, lba);
  }

  /** The operations the first write is turned into. */
  lemma {:induction false} FirstOps(a: AddrMem)
    requires a[BUF] == AddrOf(0)
    ensures var erase, program := Op(EraseOp, AddrOf(0), CMD, BUF), Op(ProgramOp, AddrOf(0), CMD, BUF);
            CmdOps(CMD, Wr, [BUF], a) == [erase, program] == RQ.Pick(CmdOps(CMD, Wr, [BUF], a), 0)
  {
    hide AddrOf;
    AddrOfFacts(0);
    var erase, program := Op(EraseOp, AddrOf(0), CMD, BUF), Op(ProgramOp, AddrOf(0), CMD, BUF);
    assert [BUF][..0] == [];
    assert CmdOps(CMD, Wr, [], a) == [];
    assert BlockOps(CMD, Wr, BUF, a[BUF]) == [erase, program];
    assert CmdOps(CMD, Wr, [BUF], a) == [erase, program];
    RQ.PickAppend([erase], [program], 0);
    assert [erase] + [program] == [erase, program];
    assert [erase][..0] == [] == [program][..0];
  }

  lemma {:induction false} FanOutFirst(s: State, lba: nat, d: Block)
    requires lba < HOST_BLOCK_CNT && Mapped(s, lba, d)
    ensures CanFanOut(s) && EraseNext(FanOut(s), lba)
  {
    hide StartFil, AddrOf, CmdOps, RQ.Pick, RQ.EnqueueAll, Pipeline.Unmapped;
    AddrOfFacts(0);
    FirstOps(s.bufAddr);
    StartPools();
    RQ.EnqueueAllOps(s.fil, CmdOps(CMD, Wr, [BUF], s.bufAddr), 0);
    assert RQ.Ops(FanOut(s).fil.queues[0])[0] == Op(EraseOp, AddrOf(0), CMD, BUF);
  }

  lemma StartPools()
    ensures |StartFil().reqPool| == 16384 && RQ.Ops(StartFil().queues[0]) == []
  {
  }

  /** The run itself: fetch, grab, pass, issue, arrive, pass, map, fan out. */
  lemma FirstWriteErasesMapped(lba: nat, d: Block) returns (states: seq<State>, steps: seq<Step>)
    requires lba < HOST_BLOCK_CNT
    ensures IsRun(states, steps) && |steps| == 8
    ensures EraseNext(states[8], lba) && CanFinish(states[8], 0)
    ensures !NotPointedInto(states[8].l2p, 0, states[8].fil.queues[0][0].op.addr.block)
    ensures PointsInto(Finish(states[8], 0).l2p[lba], 0, states[8].fil.queues[0][0].op.addr.block)
  {
    hide Start, Fetched, Grabbed, Waiting, Issued, Arrived, Entered, Mapped, Fetch, Grab, PassInit, IssueRx, RxArrive, PassWritten,
         MapCmd, FanOut, CanGrab, CanPassInit, CanIssueRx, CanPassWritten, CanMap, CanFanOut, CanFinish, Inv;
    FetchFirst(lba, d);
    var s1 := Fetch(Start(), FirstCmd(lba, d));
    GrabFirst(s1, lba, d);
    var s2 := Grab(s1);
    PassFirst(s2, lba, d);
    var s3 := PassInit(s2);
    IssueFirst(s3, lba, d);
    var s4 := IssueRx(s3);
    ArriveFirst(s4, lba, d);
    var s5 := RxArrive(s4, BUF);
    EnterFirst(s5, lba, d);
    var s6 := PassWritten(s5);
    MapFirst(s6, lba, d);
    var s7 := MapCmd(s6);
    FanOutFirst(s7, lba, d);
    var s8 := FanOut(s7);
    states := [Start(), s1, s2, s3, s4, s5, s6, s7, s8];
    steps := [FetchStep(FirstCmd(lba, d)), GrabStep, PassInitStep, IssueRxStep, RxStep(BUF), PassWrittenStep, MapStep, FanOutStep];
    EveryRun(states, steps, 8);
    AlwaysDisciplined(s8, 0);
    FinishLeavesTable(s8, 0);
  }

  lemma FinishLeavesTable(s: State, w: WayId)
    requires CanFinish(s, w)
    ensures Finish(s, w).l2p == s.l2p
  {
  }
}
