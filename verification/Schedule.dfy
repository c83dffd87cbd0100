/** The single-threaded schedule: each round runs the HIL, the FTL and the FIL, in the order and
    with the loops of the C functions. The functions say what each C function does to the state;
    the lemmas show that no queue overflows under this schedule. */
module Schedule {
  import opened Base
  import opened NandAddress
  import opened Model
  import opened WayScript
  import RQ = RequestQueues
  import opened Pipeline
  import opened Invariant
  import opened Preservation
  import opened FtlPreservation
  import opened FilFanOut
  import opened FilFinish
  import opened Machine

  // ---------------------------------------------------------------- hil_run

  /** hil_process_doneq: retire every finished write. */
  function DoneqAll(s: State): State
    decreases |s.q.done|
  {
    if CanRetireWrite(s) then DoneqAll(RetireWrite(s)) else s
  }

  /** check_auto_rx_dma_done: when it returns every receive transfer has arrived. */
  function RxDrain(s: State): State {
    s.(mem := seq(8192, b requires 0 <= b < 8192 => Arriving(s.rx, b).GetOr(s.mem[b])), rx := map[])
  }

  /** check_auto_tx_dma_done: when it returns every transmit transfer has left. */
  function TxDrain(s: State): State {
    s.(sent := s.sent + set b: BufId | b in s.tx && s.own[b].Some? ::
                          Sent(s.note[s.own[b].value.cmd].at, s.own[b].value.i, s.mem[b]),
       tx := {})
  }

  function PassAll(s: State): State
    decreases |s.q.wIssue|
  {
    if CanPassWritten(s) then PassAll(PassWritten(s)) else s
  }

  function RetireAll(s: State): State
    decreases |s.q.rIssue|
  {
    if CanRetireRead(s) then RetireAll(RetireRead(s)) else s
  }

  function DmadoneWrites(s: State): State {
    if s.q.wIssue != [] then PassAll(RxDrain(s)) else s
  }

  function DmadoneReads(s: State): State {
    if s.q.rIssue != [] then RetireAll(TxDrain(s)) else s
  }

  /** hil_process_dmadone. */
  function Dmadone(s: State): State {
    DmadoneReads(DmadoneWrites(s))
  }

  function IssueRxAll(s: State): State
    decreases |s.q.wWait|
  {
    if CanIssueRx(s) then IssueRxAll(IssueRx(s)) else s
  }

  function IssueTxAll(s: State): State
    decreases |s.q.rWait|
  {
    if CanIssueTx(s) then IssueTxAll(IssueTx(s)) else s
  }

  /** hil_process_dmawait. */
  function Dmawait(s: State): State {
    IssueTxAll(IssueRxAll(s))
  }

  function GrabIfNeeded(s: State): State {
    if CanGrab(s) then Grab(s) else s
  }

  /** hil_process_init. */
  function InitAll(s: State): State
    decreases |s.q.init|
  {
    var t := GrabIfNeeded(s);
    if CanPassInit(t) then InitAll(PassInit(t)) else t
  }

  /** nvme_run while the controller is running: fetch at most one command, if there is room. */
  function NvmeRun(s: State, arrival: Option<HostCmd>): State {
    if arrival.Some? && CanFetch(s) then Fetch(s, arrival.value) else s
  }

  function HilRun(s: State, arrival: Option<HostCmd>): State {
    InitAll(Dmawait(Dmadone(DoneqAll(NvmeRun(s, arrival)))))
  }

  // ---------------------------------------------------------------- ftl_run and fil_run

  function FtlRun(s: State): State {
    if CanMap(s) then MapCmd(s) else s
  }

  function ProcessWait(s: State): State {
    if CanFanOut(s) then FanOut(s) else s
  }

  /** For each way, whether the NAND driver reports DONE when polled this time. */
  type Polls = s: seq<bool> | |s| == 64 witness seq(64, _ => false)

  /** The k-th way fil_process_nand looks at: channels in the outer loop, ways in the inner one. */
  function WayAt(k: nat): WayId
    requires k < 64
  {
    8 * (k % 8) + k / 8
  }

  function PollOne(s: State, w: WayId, polls: Polls): State {
    if polls[w] && CanFinish(s, w) then Finish(s, w) else s
  }

  function PollUpTo(s: State, polls: Polls, k: nat): State
    requires k <= 64
  {
    if k == 0 then s else PollOne(PollUpTo(s, polls, k - 1), WayAt(k - 1), polls)
  }

  function FilRun(s: State, polls: Polls): State {
    PollUpTo(ProcessWait(s), polls, 64)
  }

  // ---------------------------------------------------------------- rounds

  /** Some outstanding transfers complete on their own. */
  function Transfers(s: State, bs: seq<BufId>): State
    decreases bs
  {
    if bs == [] then s
    else
      var t := if bs[0] in s.rx then RxArrive(s, bs[0])
               else if bs[0] in s.tx && s.own[bs[0]].Some? then TxLeave(s, bs[0]) else s;
      Transfers(t, bs[1..])
  }

  /** What the environment does in one round: a command may arrive, transfers complete before each of
      the three functions, and some NAND operations are reported done. */
  datatype Env = Env(arrival: Option<HostCmd>, beforeHil: seq<BufId>, beforeFtl: seq<BufId>, beforeFil: seq<BufId>, polls: Polls)

  /** The states of a round in which hil_run, ftl_run and fil_run return. */
  function AfterHil(s: State, e: Env): State {
    HilRun(Transfers(s, e.beforeHil), e.arrival)
  }

  function AfterFtl(s: State, e: Env): State {
    FtlRun(Transfers(AfterHil(s, e), e.beforeFtl))
  }

  function Round(s: State, e: Env): State {
    FilRun(Transfers(AfterFtl(s, e), e.beforeFil), e.polls)
  }

  predicate ValidArrival(a: Option<HostCmd>) {
    a.Some? ==> ValidHostCmd(a.value)
  }

  // ---------------------------------------------------------------- the invariant, function by function

  lemma {:induction false} DoneqAllKeeps(s: State)
    requires Inv(s)
    ensures Inv(DoneqAll(s))
    decreases |s.q.done|
  {
    hide Inv;
    if !CanRetireWrite(s) {
    } else {
      RetireWriteKeeps(s);
      DoneqAllKeeps(RetireWrite(s));
    }
  }

  lemma RxDrainKeeps(s: State)
    requires Inv(s)
    ensures Inv(RxDrain(s))
  {
    hide Placed, CmdsOk, HeadOnly, Counted, Owned, Requested, Paired, OnScript, FlashOk, TableOk, BufsOk, DmaOk,
         SentOk, HistOk;
    RxDrainBufs(s);
    RxDrainDma(s);
  }

  lemma RxDrainBufs(s: State)
    requires BufsOk(s) && DmaOk(s.rx, s.tx, s.own, s.loc) && CmdsOk(s.loc, s.cmds, s.note, s.hist)
    ensures BufsOk(RxDrain(s))
  {
    var t := RxDrain(s);
    forall b: BufId
      ensures BufOkAt(t, b)
    {
      BufsAt(s, b);
      if s.own[b].Some? {
        CmdOkAt(s, s.own[b].value.cmd);
      }
    }
  }

  lemma RxDrainDma(s: State)
    requires DmaOk(s.rx, s.tx, s.own, s.loc)
    ensures var t := RxDrain(s); DmaOk(t.rx, t.tx, t.own, t.loc)
  {
  }

  lemma TxDrainSent(s: State)
    requires DmaOk(s.rx, s.tx, s.own, s.loc) && BufsOk(s) && CmdsOk(s.loc, s.cmds, s.note, s.hist) && SentOk(s.sent, s.hist)
    ensures SentOk(TxDrain(s).sent, s.hist)
  {
    hide BufsOk, DmaOk, CmdsOk;
    forall b: BufId | b in s.tx && s.own[b].Some?
      ensures var o := s.own[b].value; var at := s.note[o.cmd].at;
              && at < |s.hist| && s.hist[at].Looked? && o.i < |s.hist[at].want|
              && (s.hist[at].want[o.i].Some? ==> s.mem[b] == s.hist[at].want[o.i].value)
    {
      BufsAt(s, b);
      TxOwnerRead(s, b);
      CmdOkAt(s, s.own[b].value.cmd);
    }
  }

  lemma TxOwnerRead(s: State, b: BufId)
    requires DmaOk(s.rx, s.tx, s.own, s.loc) && b in s.tx
    ensures s.own[b].Some? && s.loc[s.own[b].value.cmd] == InRIssue
  {
  }

  lemma TxDrainBufs(s: State)
    requires BufsOk(s)
    ensures BufsOk(TxDrain(s))
  {
    forall b: BufId
      ensures BufOkAt(TxDrain(s), b)
    {
      BufsAt(s, b);
    }
  }

  lemma TxDrainDma(s: State)
    requires DmaOk(s.rx, s.tx, s.own, s.loc)
    ensures var t := TxDrain(s); DmaOk(t.rx, t.tx, t.own, t.loc)
  {
  }

  lemma TxDrainKeeps(s: State)
    requires Inv(s)
    ensures Inv(TxDrain(s))
  {
    hide Placed, CmdsOk, HeadOnly, Counted, Owned, Requested, Paired, OnScript, FlashOk, TableOk, BufsOk, DmaOk,
         SentOk, HistOk;
    TxDrainSent(s);
    TxDrainBufs(s);
    TxDrainDma(s);
  }

  lemma {:induction false} PassAllKeeps(s: State)
    requires Inv(s)
    ensures Inv(PassAll(s))
    decreases |s.q.wIssue|
  {
    hide Inv;
    if !CanPassWritten(s) {
    } else {
      PassWrittenKeeps(s);
      PassAllKeeps(PassWritten(s));
    }
  }

  lemma {:induction false} RetireAllKeeps(s: State)
    requires Inv(s)
    ensures Inv(RetireAll(s))
    decreases |s.q.rIssue|
  {
    hide Inv;
    if !CanRetireRead(s) {
    } else {
      RetireReadKeeps(s);
      RetireAllKeeps(RetireRead(s));
    }
  }

  lemma DmadoneKeeps(s: State)
    requires Inv(s)
    ensures Inv(DmadoneWrites(s)) && Inv(Dmadone(s))
  {
    hide Inv, RxDrain, TxDrain, PassAll, RetireAll;
    if s.q.wIssue != [] {
      RxDrainKeeps(s);
      PassAllKeeps(RxDrain(s));
    }
    var t := DmadoneWrites(s);
    if t.q.rIssue != [] {
      TxDrainKeeps(t);
      RetireAllKeeps(TxDrain(t));
    }
  }

  lemma {:induction false} IssueRxAllKeeps(s: State)
    requires Inv(s)
    ensures Inv(IssueRxAll(s))
    decreases |s.q.wWait|
  {
    hide Inv;
    if !CanIssueRx(s) {
    } else {
      IssueRxKeeps(s);
      IssueRxAllKeeps(IssueRx(s));
    }
  }

  lemma {:induction false} IssueTxAllKeeps(s: State)
    requires Inv(s)
    ensures Inv(IssueTxAll(s))
    decreases |s.q.rWait|
  {
    hide Inv;
    if !CanIssueTx(s) {
    } else {
      IssueTxKeeps(s);
      IssueTxAllKeeps(IssueTx(s));
    }
  }

  lemma GrabIfNeededKeeps(s: State)
    requires Inv(s)
    ensures Inv(GrabIfNeeded(s))
  {
    hide Inv, Grab;
    if CanGrab(s) {
      GrabKeeps(s);
    }
  }

  lemma {:induction false} InitAllKeeps(s: State)
    requires Inv(s)
    ensures Inv(InitAll(s))
    decreases |s.q.init|
  {
    hide Inv;
    GrabIfNeededKeeps(s);
    var t := GrabIfNeeded(s);
    if !CanPassInit(t) {
    } else {
      PassInitKeeps(t);
      InitAllKeeps(PassInit(t));
    }
  }

  lemma HilRunKeeps(s: State, arrival: Option<HostCmd>)
    requires Inv(s) && ValidArrival(arrival)
    ensures Inv(HilRun(s, arrival))
  {
    hide Inv, Fetch, DoneqAll, Dmadone, IssueRxAll, IssueTxAll, InitAll;
    var s0 := NvmeRun(s, arrival);
    if arrival.Some? && CanFetch(s) {
      FetchKeeps(s, arrival.value);
    }
    DoneqAllKeeps(s0);
    DmadoneKeeps(DoneqAll(s0));
    IssueRxAllKeeps(Dmadone(DoneqAll(s0)));
    IssueTxAllKeeps(IssueRxAll(Dmadone(DoneqAll(s0))));
    InitAllKeeps(Dmawait(Dmadone(DoneqAll(s0))));
  }

  lemma FtlRunKeeps(s: State)
    requires Inv(s)
    ensures Inv(FtlRun(s))
  {
    hide Inv, MapCmd;
    if CanMap(s) {
      MapKeeps(s);
    }
  }

  lemma ProcessWaitKeeps(s: State)
    requires Inv(s)
    ensures Inv(ProcessWait(s))
  {
    hide Inv, FanOut;
    if CanFanOut(s) {
      FanOutKeeps(s);
    }
  }

  lemma PollOneKeeps(s: State, w: WayId, polls: Polls)
    requires Inv(s)
    ensures Inv(PollOne(s, w, polls))
  {
    hide Inv, Finish;
    if polls[w] && CanFinish(s, w) {
      FinishKeeps(s, w);
    }
  }

  lemma {:induction false} PollUpToKeeps(s: State, polls: Polls, k: nat)
    requires Inv(s) && k <= 64
    ensures Inv(PollUpTo(s, polls, k))
  {
    hide Inv, PollOne;
    if k == 0 {
    } else {
      PollUpToKeeps(s, polls, k - 1);
      PollOneKeeps(PollUpTo(s, polls, k - 1), WayAt(k - 1), polls);
    }
  }

  lemma {:induction false} TransfersKeep(s: State, bs: seq<BufId>)
    requires Inv(s)
    ensures Inv(Transfers(s, bs)) && Transfers(s, bs).q == s.q
    decreases bs
  {
    hide Inv;
    if bs == [] {
    } else {
      var b := bs[0];
      if b in s.rx {
        RxArriveKeeps(s, b);
        TransfersKeep(RxArrive(s, b), bs[1..]);
      } else if b in s.tx && s.own[b].Some? {
        TxLeaveKeeps(s, b);
        TransfersKeep(TxLeave(s, b), bs[1..]);
      } else {
        TransfersKeep(s, bs[1..]);
      }
    }
  }

  lemma AfterHilKeeps(s: State, e: Env)
    requires Inv(s) && ValidArrival(e.arrival)
    ensures Inv(AfterHil(s, e))
  {
    hide Inv, HilRun, Transfers;
    TransfersKeep(s, e.beforeHil);
    HilRunKeeps(Transfers(s, e.beforeHil), e.arrival);
  }

  lemma AfterFtlKeeps(s: State, e: Env)
    requires Inv(s) && ValidArrival(e.arrival)
    ensures Inv(AfterFtl(s, e))
  {
    hide Inv, AfterHil, FtlRun, Transfers;
    AfterHilKeeps(s, e);
    TransfersKeep(AfterHil(s, e), e.beforeFtl);
    FtlRunKeeps(Transfers(AfterHil(s, e), e.beforeFtl));
  }

  lemma RoundKeeps(s: State, e: Env)
    requires Inv(s) && ValidArrival(e.arrival)
    ensures Inv(Round(s, e))
  {
    hide Inv, AfterFtl, ProcessWait, PollUpTo, Transfers;
    AfterFtlKeeps(s, e);
    var t := Transfers(AfterFtl(s, e), e.beforeFil);
    TransfersKeep(AfterFtl(s, e), e.beforeFil);
    ProcessWaitKeeps(t);
    PollUpToKeeps(ProcessWait(t), e.polls, 64);
  }

  // ---------------------------------------------------------------- no queue overflows

  /** Between rounds every ring is within its capacity, and the two that the FIL fills are more
      than half empty. */
  predicate Bounded(q: Queues) {
    && |q.init| <= 127 && |q.wWait| <= 127 && |q.wIssue| <= 127 && |q.ftlWait| <= 127 && |q.nandWait| <= 127
    && |q.rIssue| <= 127 && |q.rWait| + |q.done| <= 65
  }

  /** The queues of two states agree, except perhaps those the stages of hil_run change. */
  lemma {:induction false} DoneqAllQueues(s: State)
    ensures DoneqAll(s).q == s.q.(done := [], pool := DoneqAll(s).q.pool)
    decreases |s.q.done|
  {
    if !CanRetireWrite(s) {
    } else {
      DoneqAllQueues(RetireWrite(s));
    }
  }

  lemma {:induction false} PassAllQueues(s: State)
    requires |s.q.ftlWait| <= 127
    ensures var q := PassAll(s).q;
            && q == s.q.(wIssue := q.wIssue, ftlWait := q.ftlWait)
            && |q.wIssue| <= |s.q.wIssue| && |q.ftlWait| <= 127
            && (s.rx == map[] ==> q.wIssue == [] || Full(q.ftlWait))
    decreases |s.q.wIssue|
  {
    if !CanPassWritten(s) {
    } else {
      PassAllQueues(PassWritten(s));
    }
  }

  lemma {:induction false} RetireAllQueues(s: State)
    requires s.tx == {}
    ensures RetireAll(s).q == s.q.(rIssue := [], pool := RetireAll(s).q.pool)
    decreases |s.q.rIssue|
  {
    if !CanRetireRead(s) {
    } else {
      RetireAllQueues(RetireRead(s));
    }
  }

  lemma DmadoneQueues(s: State)
    requires |s.q.ftlWait| <= 127 && |s.q.wIssue| <= 127
    ensures var q := Dmadone(s).q;
            && q.init == s.q.init && q.wWait == s.q.wWait && q.nandWait == s.q.nandWait && q.rWait == s.q.rWait && q.done == s.q.done
            && |q.wIssue| <= 127 && |q.ftlWait| <= 127 && q.rIssue == []
            && (q.wIssue == [] || Full(q.ftlWait))
  {
    hide PassAll, RetireAll;
    PassAllQueues(RxDrain(s));
    RetireAllQueues(TxDrain(DmadoneWrites(s)));
  }

  lemma {:induction false} IssueRxAllQueues(s: State)
    requires |s.q.wIssue| <= 127 && |s.q.wWait| <= 127
    ensures var q := IssueRxAll(s).q;
            q == s.q.(wWait := q.wWait, wIssue := q.wIssue) && |q.wWait| <= 127 && |q.wIssue| <= 127
    decreases |s.q.wWait|
  {
    if !CanIssueRx(s) {
    } else {
      IssueRxAllQueues(IssueRx(s));
    }
  }

  /** What waits for transmit DMA fits the empty issue queue, so the wait queue is emptied. */
  lemma {:induction false} IssueTxAllQueues(s: State)
    requires |s.q.rIssue| + |s.q.rWait| <= 127
    ensures var q := IssueTxAll(s).q;
            q == s.q.(rWait := [], rIssue := q.rIssue) && |q.rIssue| <= 127
    decreases |s.q.rWait|
  {
    if !CanIssueTx(s) {
    } else {
      IssueTxAllQueues(IssueTx(s));
    }
  }

  lemma {:induction false} InitAllQueues(s: State)
    requires |s.q.init| <= 127 && |s.q.wWait| <= 127 && |s.q.ftlWait| <= 127
    ensures var q := InitAll(s).q;
            && q == s.q.(init := q.init, wWait := q.wWait, ftlWait := q.ftlWait)
            && |q.init| <= 127 && |q.wWait| <= 127 && |q.ftlWait| <= 127
    decreases |s.q.init|
  {
    var t := GrabIfNeeded(s);
    if !CanPassInit(t) {
    } else {
      InitAllQueues(PassInit(t));
    }
  }

  /** Every hil_run leaves done_q and read_dma_wait_q empty and overflows nothing. */
  lemma HilRunQueues(s: State, arrival: Option<HostCmd>)
    requires Bounded(s.q)
    ensures Bounded(HilRun(s, arrival).q)
    ensures HilRun(s, arrival).q.done == [] && HilRun(s, arrival).q.rWait == []
  {
    hide DoneqAll, Dmadone, IssueRxAll, IssueTxAll, InitAll;
    var s0 := NvmeRun(s, arrival);
    DoneqAllQueues(s0);
    DmadoneQueues(DoneqAll(s0));
    var s1 := Dmadone(DoneqAll(s0));
    IssueRxAllQueues(s1);
    IssueTxAllQueues(IssueRxAll(s1));
    InitAllQueues(Dmawait(s1));
  }

  /** One way adds at most one command to the two completion queues. */
  lemma PollOneQueues(s: State, w: WayId, polls: Polls)
    ensures var q := PollOne(s, w, polls).q;
            && q == s.q.(rWait := q.rWait, done := q.done)
            && |q.rWait| + |q.done| <= |s.q.rWait| + |s.q.done| + 1
  {
  }

  lemma {:induction false} PollUpToQueues(s: State, polls: Polls, k: nat)
    requires k <= 64
    ensures var q := PollUpTo(s, polls, k).q;
            && q == s.q.(rWait := q.rWait, done := q.done)
            && |q.rWait| + |q.done| <= |s.q.rWait| + |s.q.done| + k
  {
    hide PollOne;
    if k == 0 {
    } else {
      PollUpToQueues(s, polls, k - 1);
      PollOneQueues(PollUpTo(s, polls, k - 1), WayAt(k - 1), polls);
    }
  }

  lemma FtlRunQueues(s: State)
    requires |s.q.nandWait| <= 127
    ensures var q := FtlRun(s).q;
            q == s.q.(ftlWait := q.ftlWait, nandWait := q.nandWait) && |q.ftlWait| <= |s.q.ftlWait| && |q.nandWait| <= 127
  {
    hide Replay, Given, Remapped, Digits;
  }

  lemma ProcessWaitQueues(s: State)
    ensures var q := ProcessWait(s).q;
            && q == s.q.(nandWait := q.nandWait, rWait := q.rWait)
            && |q.nandWait| <= |s.q.nandWait| && |q.rWait| <= |s.q.rWait| + 1
  {
  }

  /** When fil_run starts, both completion queues are empty and the others within bounds. */
  lemma BeforeFilQueues(s: State, e: Env)
    requires Bounded(s.q) && Inv(s) && ValidArrival(e.arrival)
    ensures var t := Transfers(AfterFtl(s, e), e.beforeFil); Bounded(t.q) && t.q.done == [] && t.q.rWait == []
  {
    hide Inv, HilRun, FtlRun, Transfers;
    TransfersKeep(s, e.beforeHil);
    HilRunQueues(Transfers(s, e.beforeHil), e.arrival);
    AfterHilKeeps(s, e);
    TransfersKeep(AfterHil(s, e), e.beforeFtl);
    FtlRunQueues(Transfers(AfterHil(s, e), e.beforeFtl));
    AfterFtlKeeps(s, e);
    TransfersKeep(AfterFtl(s, e), e.beforeFil);
  }

  /** Starting a round within bounds ends it within bounds: one fil_run adds at most 65 commands to
      the completion queues, and they were empty. */
  lemma RoundQueues(s: State, e: Env)
    requires Bounded(s.q) && Inv(s) && ValidArrival(e.arrival)
    ensures Bounded(Round(s, e).q)
  {
    hide Inv, AfterFtl, ProcessWait, PollUpTo, Transfers;
    BeforeFilQueues(s, e);
    var t := Transfers(AfterFtl(s, e), e.beforeFil);
    ProcessWaitQueues(t);
    PollUpToQueues(ProcessWait(t), e.polls, 64);
  }

  // ---------------------------------------------------------------- runs of rounds

  function Rounds(envs: seq<Env>): State
    decreases |envs|
  {
    if envs == [] then Start() else Round(Rounds(envs[..|envs| - 1]), envs[|envs| - 1])
  }

  ghost predicate ValidEnvs(envs: seq<Env>) {
    forall i :: 0 <= i < |envs| ==> ValidArrival(envs[i].arrival)
  }

  lemma {:induction false} EveryRound(envs: seq<Env>)
    requires ValidEnvs(envs)
    ensures Inv(Rounds(envs)) && Bounded(Rounds(envs).q)
    decreases |envs|
  {
    hide Inv, Round, Start;
    if envs == [] {
      StartHolds();
      StartBounded();
    } else {
      var n := |envs| - 1;
      EveryRound(envs[..n]);
      RoundKeeps(Rounds(envs[..n]), envs[n]);
      RoundQueues(Rounds(envs[..n]), envs[n]);
    }
  }

  lemma StartBounded()
    ensures Bounded(Start().q)
  {
  }
}
