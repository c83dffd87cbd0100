/** The main loop with the NAND drivers: a round in which the drivers themselves answer whether an
    operation is done keeps pipeline and drivers in step. */
module DrivenRounds {
  import opened Base
  import opened NandAddress
  import opened Model
  import RQ = RequestQueues
  import opened Pipeline
  import opened Invariant
  import opened FilFinish
  import opened Schedule
  import NW = NandWay
  import opened NandTraffic

  // ---------------------------------------------------------------- rounds of the main loop

  /** What the driver of each way sees in one round. */
  type NandEnvs = s: seq<NW.Env> | |s| == 64 witness seq(64, _ => NW.NO_SIGHT)

  /** Which ways' drivers return DONE. */
  ghost function Answers(ways: Ways, envs: NandEnvs): Polls {
    seq(64, w requires 0 <= w < 64 => Finished(ways[w], envs[w]))
  }

  /** The drivers' lists after fil_process_wait. */
  ghost function AskedAll(s: State, ways: Ways): Ways {
    if CanFanOut(s) then seq(64, w requires 0 <= w < 64 => NW.Extended(ways[w], RQ.Pick(Added(s), w))) else ways
  }

  ghost function AfterLook(way: NW.Way, env: NW.Env): NW.Way {
    if NW.CanHappen(way, NW.Polled(env)) then NW.Happen(way, NW.Polled(env)) else way
  }

  /** The drivers after fil_process_nand has looked at k ways. */
  ghost function LookedUpTo(ways: Ways, envs: NandEnvs, k: nat): Ways
    requires k <= 64
  {
    if k == 0 then ways
    else var w := WayAt(k - 1); LookedUpTo(ways, envs, k - 1)[w := AfterLook(ways[w], envs[w])]
  }

  /** fil_run. */
  ghost function FilRound(j: Coupled, envs: NandEnvs): Coupled {
    var ways := AskedAll(j.s, j.ways);
    Coupled(Schedule.FilRun(j.s, Answers(ways, envs)), LookedUpTo(ways, envs, 64))
  }

  /** A round of the main loop up to fil_run. */
  ghost function AtFil(s: State, e: Env): State {
    Transfers(AfterFtl(s, e), e.beforeFil)
  }

  ghost function CoupledRound(j: Coupled, e: Env, envs: NandEnvs): Coupled {
    FilRound(Coupled(AtFil(j.s, e), j.ways), envs)
  }

  /** The environment of the round, with the answers the drivers give in it. */
  ghost function Played(j: Coupled, e: Env, envs: NandEnvs): Env {
    e.(polls := Answers(AskedAll(AtFil(j.s, e), j.ways), envs))
  }

  lemma IsRound(j: Coupled, e: Env, envs: NandEnvs)
    ensures CoupledRound(j, e, envs).s == Round(j.s, Played(j, e, envs))
  {
    hide HilRun, FtlRun, Schedule.FilRun, Transfers;
  }

  lemma WayAtOnce(k: nat, m: nat)
    requires k < 64 && m < 64 && WayAt(k) == WayAt(m)
    ensures k == m
  {
  }

  /** Ways not looked at yet are as they were. */
  lemma {:induction false} NotLooked(ways: Ways, envs: NandEnvs, k: nat, m: nat)
    requires k <= m < 64
    ensures LookedUpTo(ways, envs, k)[WayAt(m)] == ways[WayAt(m)]
    decreases k
  {
    hide AfterLook;
    if k == 0 {
    } else {
      NotLooked(ways, envs, k - 1, m);
      if WayAt(k - 1) == WayAt(m) {
        WayAtOnce(k - 1, m);
      }
    }
  }

  /** Looking at the k-th way is one event. */
  lemma LookIsEvent(s: State, ways: Ways, envs: NandEnvs, k: nat)
    requires k < 64 && Joint(Coupled(PollUpTo(s, Answers(ways, envs), k), LookedUpTo(ways, envs, k)))
    ensures var j := Coupled(PollUpTo(s, Answers(ways, envs), k), LookedUpTo(ways, envs, k));
            var e := Polled(WayAt(k), envs[WayAt(k)]);
            Possible(j, e)
            && Next(j, e) == Coupled(PollUpTo(s, Answers(ways, envs), k + 1), LookedUpTo(ways, envs, k + 1))
  {
    hide Joint, NW.Happen, NW.Call, Finish, CanFinish;
    var j := Coupled(PollUpTo(s, Answers(ways, envs), k), LookedUpTo(ways, envs, k));
    NotLooked(ways, envs, k, k);
    CallsAreLegal(j, WayAt(k), envs[WayAt(k)]);
  }

  lemma {:induction false} LooksKeep(s: State, ways: Ways, envs: NandEnvs, k: nat)
    requires Joint(Coupled(s, ways)) && k <= 64
    ensures Joint(Coupled(PollUpTo(s, Answers(ways, envs), k), LookedUpTo(ways, envs, k)))
    decreases k
  {
    hide Joint, Answers, Possible, Next;
    if k == 0 {
      hide *;
    } else {
      LooksKeep(s, ways, envs, k - 1);
      LookIsEvent(s, ways, envs, k - 1);
      NextKeeps(Coupled(PollUpTo(s, Answers(ways, envs), k - 1), LookedUpTo(ways, envs, k - 1)),
                Polled(WayAt(k - 1), envs[WayAt(k - 1)]));
    }
  }

  lemma AskedAllKeeps(j: Coupled)
    requires Joint(j)
    ensures Joint(Coupled(ProcessWait(j.s), AskedAll(j.s, j.ways)))
  {
    hide Joint;
    if CanFanOut(j.s) {
      NextKeeps(j, Moved(FanOutStep));
    }
  }

  lemma FilRoundKeeps(j: Coupled, envs: NandEnvs)
    requires Joint(j)
    ensures Joint(FilRound(j, envs))
  {
    hide Joint, ProcessWait, AskedAll, PollUpTo, LookedUpTo, Answers;
    AskedAllKeeps(j);
    LooksKeep(ProcessWait(j.s), AskedAll(j.s, j.ways), envs, 64);
  }

  // ------------------------------------------ what hil_run and ftl_run leave alone

  predicate SameFil(s: State, t: State) {
    t.fil == s.fil && t.pos == s.pos && t.flash == s.flash && s.log <= t.log
  }

  lemma {:induction false} DoneqAllFil(s: State)
    ensures SameFil(s, DoneqAll(s))
    decreases |s.q.done|
  {
    if !CanRetireWrite(s) {
    } else {
      DoneqAllFil(RetireWrite(s));
    }
  }

  lemma {:induction false} PassAllFil(s: State)
    ensures SameFil(s, PassAll(s))
    decreases |s.q.wIssue|
  {
    if !CanPassWritten(s) {
    } else {
      PassAllFil(PassWritten(s));
    }
  }

  lemma {:induction false} RetireAllFil(s: State)
    ensures SameFil(s, RetireAll(s))
    decreases |s.q.rIssue|
  {
    if !CanRetireRead(s) {
    } else {
      RetireAllFil(RetireRead(s));
    }
  }

  lemma {:induction false} IssueRxAllFil(s: State)
    ensures SameFil(s, IssueRxAll(s))
    decreases |s.q.wWait|
  {
    if !CanIssueRx(s) {
    } else {
      IssueRxAllFil(IssueRx(s));
    }
  }

  lemma {:induction false} IssueTxAllFil(s: State)
    ensures SameFil(s, IssueTxAll(s))
    decreases |s.q.rWait|
  {
    if !CanIssueTx(s) {
    } else {
      IssueTxAllFil(IssueTx(s));
    }
  }

  lemma {:induction false} InitAllFil(s: State)
    ensures SameFil(s, InitAll(s))
    decreases |s.q.init|
  {
    var t := GrabIfNeeded(s);
    if !CanPassInit(t) {
    } else {
      InitAllFil(PassInit(t));
    }
  }

  lemma {:induction false} TransfersFil(s: State, bs: seq<BufId>)
    ensures SameFil(s, Transfers(s, bs))
    decreases bs
  {
    if bs == [] {
    } else {
      var t := if bs[0] in s.rx then RxArrive(s, bs[0])
               else if bs[0] in s.tx && s.own[bs[0]].Some? then TxLeave(s, bs[0]) else s;
      TransfersFil(t, bs[1..]);
    }
  }

  lemma DmadoneFil(s: State)
    ensures SameFil(s, Dmadone(s))
  {
    hide PassAll, RetireAll;
    PassAllFil(RxDrain(s));
    RetireAllFil(TxDrain(DmadoneWrites(s)));
  }

  lemma HilRunFil(s: State, arrival: Option<HostCmd>)
    ensures SameFil(s, HilRun(s, arrival))
  {
    hide DoneqAll, Dmadone, IssueRxAll, IssueTxAll, InitAll;
    var s0 := NvmeRun(s, arrival);
    DoneqAllFil(s0);
    DmadoneFil(DoneqAll(s0));
    var s2 := Dmadone(DoneqAll(s0));
    IssueRxAllFil(s2);
    IssueTxAllFil(IssueRxAll(s2));
    InitAllFil(Dmawait(s2));
  }

  lemma FtlRunFil(s: State)
    ensures SameFil(s, FtlRun(s))
  {
  }

  lemma AtFilKeeps(j: Coupled, e: Env)
    requires Joint(j) && ValidArrival(e.arrival)
    ensures Joint(Coupled(AtFil(j.s, e), j.ways))
  {
    hide Inv, InStep, AfterFtl, Transfers;
    AfterFtlKeeps(j.s, e);
    TransfersKeep(AfterFtl(j.s, e), e.beforeFil);
    AtFilFil(j.s, e);
    forall w: WayId
      ensures InStep(AtFil(j.s, e), j.ways[w], w)
    {
      SameInStep(j.s, AtFil(j.s, e), j.ways[w], w);
    }
  }

  lemma AtFilFil(s: State, e: Env)
    ensures SameFil(s, AtFil(s, e))
  {
    hide HilRun, FtlRun, Transfers;
    TransfersFil(s, e.beforeHil);
    HilRunFil(Transfers(s, e.beforeHil), e.arrival);
    TransfersFil(AfterHil(s, e), e.beforeFtl);
    FtlRunFil(Transfers(AfterHil(s, e), e.beforeFtl));
    TransfersFil(AfterFtl(s, e), e.beforeFil);
  }

  /** A round with the drivers keeps everything, whatever arrives and whatever the drivers see. */
  lemma CoupledRoundKeeps(j: Coupled, e: Env, envs: NandEnvs)
    requires Joint(j) && ValidArrival(e.arrival)
    ensures Joint(CoupledRound(j, e, envs))
  {
    hide Joint, AtFil, FilRound;
    AtFilKeeps(j, e);
    FilRoundKeeps(Coupled(AtFil(j.s, e), j.ways), envs);
  }

  /** The first n rounds of the main loop, from the start. */
  ghost function CoupledRounds(envs: seq<Env>, nands: seq<NandEnvs>): Coupled
    requires |nands| == |envs|
    decreases |envs|
  {
    if envs == [] then Begin()
    else
      var n := |envs| - 1;
      CoupledRound(CoupledRounds(envs[..n], nands[..n]), envs[n], nands[n])
  }

  /** After any number of rounds the controller of every way has been sent its script, as far as it got. */
  lemma {:induction false} RoundsSendInOrder(envs: seq<Env>, nands: seq<NandEnvs>, w: WayId)
    requires |nands| == |envs| && ValidEnvs(envs)
    ensures Joint(CoupledRounds(envs, nands)) && SentInOrder(CoupledRounds(envs, nands), w)
    decreases |envs|
  {
    hide Joint, SentInOrder, CoupledRound, Begin;
    if envs == [] {
      BeginsJoint();
    } else {
      var n := |envs| - 1;
      assert forall k :: 0 <= k < n ==> envs[..n][k] == envs[k];
      RoundsSendInOrder(envs[..n], nands[..n], w);
      CoupledRoundKeeps(CoupledRounds(envs[..n], nands[..n]), envs[n], nands[n]);
    }
    JointFollowsScript(CoupledRounds(envs, nands), w);
  }

  /** For the pipeline these are rounds like any others, with the answers the drivers give: everything
      proved of rounds holds here. */
  lemma {:induction false} AreRounds(envs: seq<Env>, nands: seq<NandEnvs>) returns (played: seq<Env>)
    requires |nands| == |envs|
    ensures |played| == |envs| && forall k :: 0 <= k < |envs| ==> played[k] == envs[k].(polls := played[k].polls)
    ensures CoupledRounds(envs, nands).s == Rounds(played)
    decreases |envs|
  {
    hide Round, CoupledRound, Played, Start;
    if envs == [] {
      played := [];
      assert Begin().s == Start();
    } else {
      var n := |envs| - 1;
      var before := AreRounds(envs[..n], nands[..n]);
      var j := CoupledRounds(envs[..n], nands[..n]);
      OnlyPolls(j, envs[n], nands[n]);
      IsRound(j, envs[n], nands[n]);
      played := before + [Played(j, envs[n], nands[n])];
      assert played[..n] == before;
    }
  }

  lemma OnlyPolls(j: Coupled, e: Env, envs: NandEnvs)
    ensures Played(j, e, envs) == e.(polls := Played(j, e, envs).polls)
  {
  }
}
