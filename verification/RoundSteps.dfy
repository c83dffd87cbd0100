/** A round of the schedule is a sequence of machine steps, so what is proved of every run holds of
    the main loop; and rounds without arrivals drain the pipeline. */
module RoundSteps {
  import opened Base
  import opened NandAddress
  import opened Model
  import opened WayScript
  import RQ = RequestQueues
  import opened Pipeline
  import opened Invariant
  import opened Preservation
  import opened Machine
  import opened Theorems
  import opened Progress
  import opened Schedule

  // ---------------------------------------------------------------- paths

  /** The steps, one after the other, lead from s to t. */
  ghost predicate Path(s: State, steps: seq<Step>, t: State)
    decreases steps
  {
    if steps == [] then s == t else Enabled(s, steps[0]) && Path(Do(s, steps[0]), steps[1..], t)
  }

  /** No command is fetched. */
  predicate Quiet(steps: seq<Step>) {
    forall k :: 0 <= k < |steps| ==> !steps[k].FetchStep?
  }

  /** The commands fetched, in order. */
  function FetchedBy(steps: seq<Step>): seq<HostCmd> {
    if steps == [] then []
    else
      var n := |steps| - 1;
      FetchedBy(steps[..n]) + (if steps[n].FetchStep? then [steps[n].h] else [])
  }

  lemma {:induction false} FetchedAppend(a: seq<Step>, b: seq<Step>)
    ensures FetchedBy(a + b) == FetchedBy(a) + FetchedBy(b)
    decreases |b|
  {
    if b == [] {
      assert a + b == a;
    } else {
      var n := |b| - 1;
      FetchedAppend(a, b[..n]);
      assert (a + b)[..|a + b| - 1] == a + b[..n];
    }
  }

  lemma {:induction false} QuietFetches(steps: seq<Step>)
    requires Quiet(steps)
    ensures FetchedBy(steps) == []
    decreases |steps|
  {
    if steps == [] {
    } else {
      QuietFetches(steps[..|steps| - 1]);
    }
  }

  lemma {:induction false} PathAppend(s: State, a: seq<Step>, t: State, b: seq<Step>, u: State)
    requires Path(s, a, t) && Path(t, b, u)
    ensures Path(s, a + b, u) && (Quiet(a) && Quiet(b) ==> Quiet(a + b))
    decreases a
  {
    hide Do, Enabled;
    if a == [] {
      assert a + b == b;
    } else {
      PathAppend(Do(s, a[0]), a[1..], t, b, u);
      assert (a + b)[0] == a[0] && (a + b)[1..] == a[1..] + b;
    }
  }

  lemma PathOne(s: State, st: Step)
    requires Enabled(s, st)
    ensures Path(s, [st], Do(s, st))
  {
    hide Do, Enabled;
    assert [st][1..] == [];
  }

  lemma {:induction false} PathKeeps(s: State, steps: seq<Step>, t: State)
    requires Inv(s) && Path(s, steps, t)
    ensures Inv(t)
    decreases steps
  {
    hide Inv, Do, Enabled;
    if steps == [] {
    } else {
      StepKeeps(s, steps[0]);
      PathKeeps(Do(s, steps[0]), steps[1..], t);
    }
  }

  lemma {:induction false} PathRank(s: State, steps: seq<Step>, t: State)
    requires Inv(s) && Path(s, steps, t) && Quiet(steps)
    ensures Rank(t) <= Rank(s) && (steps != [] ==> Rank(t) < Rank(s))
    decreases steps
  {
    hide Inv, Do, Enabled, Rank;
    if steps == [] {
    } else {
      StepKeeps(s, steps[0]);
      RankDrops(s, steps[0]);
      PathRank(Do(s, steps[0]), steps[1..], t);
    }
  }

  // ---------------------------------------------------------------- transfers

  lemma {:induction false} TransfersSteps(s: State, bs: seq<BufId>) returns (steps: seq<Step>)
    ensures Path(s, steps, Transfers(s, bs)) && Quiet(steps)
    decreases bs
  {
    if bs == [] {
      steps := [];
    } else if bs[0] in s.rx {
      steps := TransfersSteps(RxArrive(s, bs[0]), bs[1..]);
      steps := [RxStep(bs[0])] + steps;
    } else if bs[0] in s.tx && s.own[bs[0]].Some? {
      steps := TransfersSteps(TxLeave(s, bs[0]), bs[1..]);
      steps := [TxStep(bs[0])] + steps;
    } else {
      steps := TransfersSteps(s, bs[1..]);
    }
  }

  lemma RxDrainArrive(s: State, b: BufId)
    requires b in s.rx
    ensures RxDrain(RxArrive(s, b)) == RxDrain(s)
  {
    var t := RxArrive(s, b);
    assert forall x: BufId :: Arriving(t.rx, x).GetOr(t.mem[x]) == Arriving(s.rx, x).GetOr(s.mem[x]);
    assert RxDrain(t).mem == RxDrain(s).mem;
  }

  lemma {:induction false} RxSteps(s: State) returns (steps: seq<Step>)
    ensures Path(s, steps, RxDrain(s)) && Quiet(steps) && (steps == [] ==> s.rx == map[])
    decreases |s.rx|
  {
    hide RxDrain;
    if s.rx == map[] {
      steps := [];
      RxDrainNothing(s);
    } else {
      var b :| b in s.rx;
      RxDrainArrive(s, b);
      steps := RxSteps(RxArrive(s, b));
      steps := [RxStep(b)] + steps;
    }
  }

  lemma RxDrainNothing(s: State)
    requires s.rx == map[]
    ensures RxDrain(s) == s
  {
    assert RxDrain(s).mem == s.mem;
  }

  lemma TxDrainLeave(s: State, b: BufId)
    requires b in s.tx && s.own[b].Some?
    ensures TxDrain(TxLeave(s, b)) == TxDrain(s)
  {
    var t := TxLeave(s, b);
    assert TxDrain(t).sent == TxDrain(s).sent;
  }

  lemma {:induction false} TxSteps(s: State) returns (steps: seq<Step>)
    requires forall b: BufId :: b in s.tx ==> s.own[b].Some?
    ensures Path(s, steps, TxDrain(s)) && Quiet(steps) && (steps == [] ==> s.tx == {})
    decreases |s.tx|
  {
    hide TxDrain;
    if s.tx == {} {
      steps := [];
      TxDrainNothing(s);
    } else {
      var b :| b in s.tx;
      TxDrainLeave(s, b);
      steps := TxSteps(TxLeave(s, b));
      steps := [TxStep(b)] + steps;
    }
  }

  lemma TxDrainNothing(s: State)
    requires s.tx == {}
    ensures TxDrain(s) == s
  {
  }

  // ---------------------------------------------------------------- the loops of the HIL

  lemma {:induction false} DoneqSteps(s: State) returns (steps: seq<Step>)
    ensures Path(s, steps, DoneqAll(s)) && Quiet(steps) && (steps == [] ==> !CanRetireWrite(s))
    decreases |s.q.done|
  {
    steps := [];
    if !CanRetireWrite(s) {
    } else {
      steps := DoneqSteps(RetireWrite(s));
      steps := [RetireWriteStep] + steps;
    }
  }

  lemma {:induction false} PassAllSteps(s: State) returns (steps: seq<Step>)
    ensures Path(s, steps, PassAll(s)) && Quiet(steps) && (steps == [] ==> !CanPassWritten(s))
    decreases |s.q.wIssue|
  {
    steps := [];
    if !CanPassWritten(s) {
    } else {
      steps := PassAllSteps(PassWritten(s));
      steps := [PassWrittenStep] + steps;
    }
  }

  lemma {:induction false} RetireAllSteps(s: State) returns (steps: seq<Step>)
    ensures Path(s, steps, RetireAll(s)) && Quiet(steps) && (steps == [] ==> !CanRetireRead(s))
    decreases |s.q.rIssue|
  {
    steps := [];
    if !CanRetireRead(s) {
    } else {
      steps := RetireAllSteps(RetireRead(s));
      steps := [RetireReadStep] + steps;
    }
  }

  lemma {:induction false} IssueRxAllSteps(s: State) returns (steps: seq<Step>)
    ensures Path(s, steps, IssueRxAll(s)) && Quiet(steps) && (steps == [] ==> !CanIssueRx(s))
    decreases |s.q.wWait|
  {
    steps := [];
    if !CanIssueRx(s) {
    } else {
      steps := IssueRxAllSteps(IssueRx(s));
      steps := [IssueRxStep] + steps;
    }
  }

  lemma {:induction false} IssueTxAllSteps(s: State) returns (steps: seq<Step>)
    ensures Path(s, steps, IssueTxAll(s)) && Quiet(steps) && (steps == [] ==> !CanIssueTx(s))
    decreases |s.q.rWait|
  {
    steps := [];
    if !CanIssueTx(s) {
    } else {
      steps := IssueTxAllSteps(IssueTx(s));
      steps := [IssueTxStep] + steps;
    }
  }

  lemma {:induction false} InitAllSteps(s: State) returns (steps: seq<Step>)
    ensures Path(s, steps, InitAll(s)) && Quiet(steps) && (steps == [] ==> !CanGrab(s) && !CanPassInit(s))
    decreases |s.q.init|
  {
    hide Grab, PassInit;
    var t := GrabIfNeeded(s);
    steps := [];
    GrabKeepsInit(s);
    if CanPassInit(t) {
      PassInitShortens(t);
      steps := InitAllSteps(PassInit(t));
      steps := [PassInitStep] + steps;
    }
    if CanGrab(s) {
      steps := [GrabStep] + steps;
    }
  }

  lemma GrabKeepsInit(s: State)
    ensures GrabIfNeeded(s).q.init == s.q.init
  {
  }

  lemma PassInitShortens(s: State)
    requires CanPassInit(s)
    ensures |PassInit(s).q.init| < |s.q.init|
  {
  }

  lemma DmadoneWritesSteps(s: State) returns (steps: seq<Step>)
    ensures Path(s, steps, DmadoneWrites(s)) && Quiet(steps)
    ensures steps == [] ==> DmadoneWrites(s) == s && !CanPassWritten(s) && (s.q.wIssue != [] ==> s.rx == map[])
  {
    hide RxDrain, PassAll, Do, Enabled;
    steps := [];
    if s.q.wIssue != [] {
      var a := RxSteps(s);
      var b := PassAllSteps(RxDrain(s));
      PathAppend(s, a, RxDrain(s), b, PassAll(RxDrain(s)));
      steps := a + b;
      if steps == [] {
        RxDrainNothing(s);
      }
    }
  }

  lemma DmadoneReadsSteps(s: State) returns (steps: seq<Step>)
    requires Inv(s)
    ensures Path(s, steps, DmadoneReads(s)) && Quiet(steps)
    ensures steps == [] ==> DmadoneReads(s) == s && !CanRetireRead(s) && (s.q.rIssue != [] ==> s.tx == {})
  {
    hide Inv, TxDrain, RetireAll, Do, Enabled;
    steps := [];
    if s.q.rIssue != [] {
      TxOwned(s);
      var a := TxSteps(s);
      var b := RetireAllSteps(TxDrain(s));
      PathAppend(s, a, TxDrain(s), b, RetireAll(TxDrain(s)));
      steps := a + b;
      if steps == [] {
        TxDrainNothing(s);
      }
    }
  }

  lemma TxOwned(s: State)
    requires Inv(s)
    ensures forall b: BufId :: b in s.tx ==> s.own[b].Some? && s.loc[s.own[b].value.cmd] == InRIssue
    ensures forall b: BufId :: b in s.rx ==> s.own[b].Some? && s.loc[s.own[b].value.cmd] == InWIssue
    ensures forall c: CmdId :: s.loc[c] == InWIssue ==> s.q.wIssue != []
    ensures forall c: CmdId :: s.loc[c] == InRIssue ==> s.q.rIssue != []
  {
    hide CmdsOk, HeadOnly, Counted, Requested, Owned, Paired, OnScript, FlashOk, TableOk, BufsOk, SentOk, HistOk;
    assert Lists(QueueAt(s.q, InWIssue), s.loc, InWIssue) && Lists(QueueAt(s.q, InRIssue), s.loc, InRIssue);
  }

  /** None of the HIL's steps is possible. */
  predicate HilIdle(s: State) {
    && !CanRetireWrite(s) && !CanPassWritten(s) && !CanRetireRead(s) && !CanIssueRx(s) && !CanIssueTx(s)
    && !CanGrab(s) && !CanPassInit(s)
    && (s.q.wIssue != [] ==> s.rx == map[]) && (s.q.rIssue != [] ==> s.tx == {})
  }

  /** hil_run after the fetch. */
  function HilRest(s: State): State {
    InitAll(Dmawait(Dmadone(DoneqAll(s))))
  }

  lemma HilRestSteps(s: State) returns (steps: seq<Step>)
    requires Inv(s)
    ensures Path(s, steps, HilRest(s)) && Quiet(steps) && (steps == [] ==> HilIdle(s) && HilRest(s) == s)
  {
    hide Inv, Do, Enabled, DoneqAll, DmadoneWrites, DmadoneReads, IssueRxAll, IssueTxAll, InitAll, Path, Quiet,
         CanRetireWrite, CanPassWritten, CanRetireRead, CanIssueRx, CanIssueTx, CanGrab, CanPassInit;
    var a := DoneqSteps(s);
    var s1 := DoneqAll(s);
    DoneqAllKeeps(s);
    var b := DmadoneWritesSteps(s1);
    var s2 := DmadoneWrites(s1);
    DmadoneKeeps(s1);
    PathAppend(s, a, s1, b, s2);
    var c := DmadoneReadsSteps(s2);
    var s3 := DmadoneReads(s2);
    PathAppend(s, a + b, s2, c, s3);
    var d := IssueRxAllSteps(s3);
    PathAppend(s, a + b + c, s3, d, IssueRxAll(s3));
    var e := IssueTxAllSteps(IssueRxAll(s3));
    var s4 := IssueTxAll(IssueRxAll(s3));
    PathAppend(s, a + b + c + d, IssueRxAll(s3), e, s4);
    var f := InitAllSteps(s4);
    PathAppend(s, a + b + c + d + e, s4, f, InitAll(s4));
    steps := a + b + c + d + e + f;
    if steps == [] {
      PathNone(s, a, s1);
      PathNone(s1, b, s2);
      PathNone(s2, c, s3);
      PathNone(s3, d, IssueRxAll(s3));
      PathNone(s3, e, s4);
      PathNone(s4, f, InitAll(s4));
    }
  }

  lemma PathNone(s: State, steps: seq<Step>, t: State)
    requires Path(s, steps, t)
    ensures steps == [] ==> s == t
  {
  }

  lemma HilRunSteps(s: State, arrival: Option<HostCmd>) returns (steps: seq<Step>)
    requires Inv(s) && ValidArrival(arrival)
    ensures Path(s, steps, HilRun(s, arrival))
    ensures arrival.None? ==> Quiet(steps) && (steps == [] ==> HilIdle(s) && HilRun(s, arrival) == s)
    ensures FetchedBy(steps) == Taken(s, arrival)
  {
    hide Inv, Do, Fetch, CanFetch, HilRest, HilIdle, Quiet, FetchedBy, Taken;
    HilRunIs(s, arrival);
    TakenIs(s, arrival);
    if arrival.Some? && CanFetch(s) {
      var st := FetchStep(arrival.value);
      FetchedOne(arrival.value);
      FetchIsStep(s, arrival.value);
      StepKeeps(s, st);
      PathOne(s, st);
      var rest := HilRestSteps(Do(s, st));
      PathAppend(s, [st], Do(s, st), rest, HilRest(Do(s, st)));
      steps := [st] + rest;
      FetchedAppend([st], rest);
      QuietFetches(rest);
    } else {
      steps := HilRestSteps(s);
      QuietFetches(steps);
    }
  }

  lemma FetchedOne(h: HostCmd)
    ensures FetchedBy([FetchStep(h)]) == [h]
  {
    assert [FetchStep(h)][..0] == [];
    assert FetchedBy([]) == [];
  }

  /** An arriving command is taken when fewer than 127 commands wait in init_q and a struct is free. */
  function Taken(s: State, arrival: Option<HostCmd>): seq<HostCmd> {
    if arrival.Some? && |s.q.init| < 127 && s.q.pool != [] then [arrival.value] else []
  }

  lemma TakenIs(s: State, arrival: Option<HostCmd>)
    ensures Taken(s, arrival) == if arrival.Some? && CanFetch(s) then [arrival.value] else []
  {
  }

  lemma {:induction false} TransfersQueues(s: State, bs: seq<BufId>)
    ensures Transfers(s, bs).q == s.q
    decreases bs
  {
    if bs == [] {
    } else if bs[0] in s.rx {
      TransfersQueues(RxArrive(s, bs[0]), bs[1..]);
    } else if bs[0] in s.tx && s.own[bs[0]].Some? {
      TransfersQueues(TxLeave(s, bs[0]), bs[1..]);
    } else {
      TransfersQueues(s, bs[1..]);
    }
  }

  lemma FetchIsStep(s: State, h: HostCmd)
    requires CanFetch(s) && ValidHostCmd(h)
    ensures Enabled(s, FetchStep(h)) && Do(s, FetchStep(h)) == Fetch(s, h)
  {
  }

  lemma HilRunIs(s: State, arrival: Option<HostCmd>)
    ensures HilRun(s, arrival) == HilRest(if arrival.Some? && CanFetch(s) then Fetch(s, arrival.value) else s)
  {
    hide Fetch, CanFetch, InitAll, Dmawait, Dmadone, DoneqAll;
  }

  // ---------------------------------------------------------------- the FTL, the FIL, the round

  lemma FtlRunSteps(s: State) returns (steps: seq<Step>)
    ensures Path(s, steps, FtlRun(s)) && Quiet(steps) && (steps == [] ==> !CanMap(s) && FtlRun(s) == s)
  {
    hide MapCmd, CanMap;
    steps := [];
    if CanMap(s) {
      steps := [MapStep];
      MapIsStep(s);
      PathOne(s, MapStep);
    }
  }

  lemma MapIsStep(s: State)
    requires CanMap(s)
    ensures Enabled(s, MapStep) && Do(s, MapStep) == MapCmd(s)
  {
  }

  lemma ProcessWaitSteps(s: State) returns (steps: seq<Step>)
    ensures Path(s, steps, ProcessWait(s)) && Quiet(steps) && (steps == [] ==> !CanFanOut(s) && ProcessWait(s) == s)
  {
    hide FanOut, CanFanOut;
    steps := [];
    if CanFanOut(s) {
      steps := [FanOutStep];
      FanOutIsStep(s);
      PathOne(s, FanOutStep);
    }
  }

  lemma FanOutIsStep(s: State)
    requires CanFanOut(s)
    ensures Enabled(s, FanOutStep) && Do(s, FanOutStep) == FanOut(s)
  {
  }

  lemma FinishIsStep(s: State, w: WayId)
    requires CanFinish(s, w)
    ensures Enabled(s, FinishStep(w)) && Do(s, FinishStep(w)) == Finish(s, w)
  {
  }

  lemma {:induction false} PollUpToSteps(s: State, polls: Polls, k: nat) returns (steps: seq<Step>)
    requires k <= 64
    ensures Path(s, steps, PollUpTo(s, polls, k)) && Quiet(steps)
    ensures steps == [] ==> PollUpTo(s, polls, k) == s && forall j :: 0 <= j < k ==> !(polls[WayAt(j)] && CanFinish(s, WayAt(j)))
  {
    hide Finish, CanFinish, Do, Enabled, Quiet;
    steps := [];
    if k > 0 {
      var a := PollUpToSteps(s, polls, k - 1);
      var t, w := PollUpTo(s, polls, k - 1), WayAt(k - 1);
      if polls[w] && CanFinish(t, w) {
        FinishIsStep(t, w);
        PathOne(t, FinishStep(w));
        QuietOne(FinishStep(w));
        PathAppend(s, a, t, [FinishStep(w)], Finish(t, w));
        steps := a + [FinishStep(w)];
      } else {
        steps := a;
      }
    } else {
      QuietNone();
    }
  }

  lemma QuietOne(st: Step)
    requires !st.FetchStep?
    ensures Quiet([st])
  {
  }

  lemma QuietNone()
    ensures Quiet([])
  {
  }

  /** Nothing is left to do for any of the three functions, with these answers of the ways. */
  predicate Idle(s: State, polls: Polls) {
    && HilIdle(s) && !CanMap(s) && !CanFanOut(s)
    && forall j :: 0 <= j < 64 ==> !(polls[WayAt(j)] && CanFinish(s, WayAt(j)))
  }

  /** What comes after hil_run in a round. */
  lemma RestOfRound(s: State, e: Env) returns (steps: seq<Step>)
    ensures Path(AfterHil(s, e), steps, Round(s, e)) && Quiet(steps)
    ensures steps == [] ==> var t := AfterHil(s, e);
              && Transfers(AfterFtl(s, e), e.beforeFil) == t && Round(s, e) == t
              && !CanMap(t) && !CanFanOut(t) && forall j :: 0 <= j < 64 ==> !(e.polls[WayAt(j)] && CanFinish(t, WayAt(j)))
  {
    hide Do, Enabled, Transfers, AfterHil, FtlRun, ProcessWait, PollUpTo, Quiet, Path, CanMap, CanFanOut, CanFinish;
    var s2 := AfterHil(s, e);
    var c := TransfersSteps(s2, e.beforeFtl);
    var s3 := Transfers(s2, e.beforeFtl);
    var d := FtlRunSteps(s3);
    var s4 := AfterFtl(s, e);
    PathAppend(s2, c, s3, d, s4);
    var f := TransfersSteps(s4, e.beforeFil);
    var s5 := Transfers(s4, e.beforeFil);
    PathAppend(s2, c + d, s4, f, s5);
    var g := ProcessWaitSteps(s5);
    var s6 := ProcessWait(s5);
    PathAppend(s2, c + d + f, s5, g, s6);
    var h := PollUpToSteps(s6, e.polls, 64);
    PathAppend(s2, c + d + f + g, s6, h, Round(s, e));
    steps := c + d + f + g + h;
    if steps == [] {
      PathNone(s2, c, s3);
      PathNone(s3, d, s4);
      PathNone(s4, f, s5);
      PathNone(s5, g, s6);
      PathNone(s6, h, Round(s, e));
    }
  }

  /** Every round is a sequence of machine steps; without an arrival it fetches nothing, and it takes
      no step only if there was none to take. */
  lemma RoundSteps(s: State, e: Env) returns (steps: seq<Step>)
    requires Inv(s) && ValidArrival(e.arrival)
    ensures Path(s, steps, Round(s, e))
    ensures e.arrival.None? ==> Quiet(steps)
    ensures FetchedBy(steps) == Taken(s, e.arrival)
    ensures e.arrival.None? && steps == [] ==>
      Idle(s, e.polls) && Transfers(AfterFtl(s, e), e.beforeFil) == s && Round(s, e) == s
  {
    hide Inv, Do, Enabled, Transfers, HilRun, Round, HilIdle, Quiet, Path, CanMap, CanFanOut, CanFinish, FetchedBy;
    var a := TransfersSteps(s, e.beforeHil);
    var s1 := Transfers(s, e.beforeHil);
    TransfersKeep(s, e.beforeHil);
    var b := HilRunSteps(s1, e.arrival);
    PathAppend(s, a, s1, b, AfterHil(s, e));
    var c := RestOfRound(s, e);
    PathAppend(s, a + b, AfterHil(s, e), c, Round(s, e));
    steps := a + b + c;
    TransfersQueues(s, e.beforeHil);
    FetchedBetween(a, b, c);
    if steps == [] && e.arrival.None? {
      PathNone(s, a, s1);
      PathNone(s1, b, AfterHil(s, e));
    }
  }

  lemma FetchedBetween(a: seq<Step>, b: seq<Step>, c: seq<Step>)
    requires Quiet(a) && Quiet(c)
    ensures FetchedBy(a + b + c) == FetchedBy(b)
  {
    hide Quiet, FetchedBy;
    QuietFetches(a);
    QuietFetches(c);
    FetchedAppend(a, b);
    FetchedAppend(a + b, c);
  }

  /** Later rounds are reached from earlier ones by machine steps. */
  lemma {:induction false} LaterRounds(envs: seq<Env>, r: nat) returns (steps: seq<Step>)
    requires ValidEnvs(envs) && r <= |envs|
    ensures Path(Rounds(envs[..r]), steps, Rounds(envs))
    decreases |envs|
  {
    hide Inv, Do, Enabled, Round, Bounded, Start;
    var n := |envs| - 1;
    if r == |envs| {
      assert envs[..r] == envs;
      steps := [];
    } else {
      var a := LaterRounds(envs[..n], r);
      assert envs[..n][..r] == envs[..r];
      EveryRound(envs[..n]);
      var b := RoundSteps(Rounds(envs[..n]), envs[n]);
      PathAppend(Rounds(envs[..r]), a, Rounds(envs[..n]), b, Rounds(envs));
      steps := a + b;
    }
  }

  // ---------------------------------------------------------------- rounds as runs

  lemma {:induction false} RunExtends(states: seq<State>, steps: seq<Step>, more: seq<Step>, t: State)
    returns (states': seq<State>, steps': seq<Step>)
    requires IsRun(states, steps) && Path(states[|steps|], more, t)
    ensures IsRun(states', steps') && states'[|steps'|] == t
    ensures |states| <= |states'| && states'[..|states|] == states && steps' == steps + more
    decreases more
  {
    hide Do, Enabled, Start;
    if more == [] {
      states', steps' := states, steps;
      assert steps + more == steps;
    } else {
      var s := states[|steps|];
      var st, u := more[0], Do(s, more[0]);
      assert IsRun(states + [u], steps + [st]) by {
        forall i | 0 <= i < |steps + [st]|
          ensures Enabled((states + [u])[i], (steps + [st])[i]) && (states + [u])[i + 1] == Do((states + [u])[i], (steps + [st])[i])
        {
          assert i < |steps| ==> (states + [u])[i] == states[i] && (states + [u])[i + 1] == states[i + 1];
        }
      }
      states', steps' := RunExtends(states + [u], steps + [st], more[1..], t);
      assert states'[..|states|] == states'[..|states| + 1][..|states|] == states;
      assert more == [st] + more[1..] && steps + [st] + more[1..] == steps + more;
    }
  }

  /** The commands taken over rounds. */
  function Arrived(envs: seq<Env>): seq<HostCmd> {
    if envs == [] then []
    else
      var n := |envs| - 1;
      Arrived(envs[..n]) + Taken(Rounds(envs[..n]), envs[n].arrival)
  }

  /** The state after any rounds is the last state of a run of the machine, so every theorem about
      runs is one about the main loop; and what the run fetches is every command that arrived when
      there was room for it, and no other. */
  lemma {:induction false} RoundsAreARun(envs: seq<Env>) returns (states: seq<State>, steps: seq<Step>)
    requires ValidEnvs(envs)
    ensures IsRun(states, steps) && states[|steps|] == Rounds(envs) && FetchedBy(steps) == Arrived(envs)
    decreases |envs|
  {
    hide Inv, Do, Enabled, Start, Round, Bounded, IsRun, Taken;
    if envs == [] {
      states, steps := [Start()], [];
      StartIsRun();
    } else {
      var n := |envs| - 1;
      states, steps := RoundsAreARun(envs[..n]);
      EveryRound(envs[..n]);
      var more := RoundSteps(Rounds(envs[..n]), envs[n]);
      RunShape(states, steps);
      FetchedAppend(steps, more);
      states, steps := RunExtends(states, steps, more, Rounds(envs));
    }
  }

  lemma StartIsRun()
    ensures IsRun([Start()], [])
  {
  }

  lemma RunShape(states: seq<State>, steps: seq<Step>)
    requires IsRun(states, steps)
    ensures |states| == |steps| + 1
  {
  }

  /** The flash discipline for the main loop: what a way has executed after any rounds is the
      beginning of its script. */
  lemma RoundsFollowScript(envs: seq<Env>, w: WayId) returns (states: seq<State>, steps: seq<Step>)
    requires ValidEnvs(envs)
    ensures IsRun(states, steps) && states[|steps|] == Rounds(envs)
    ensures forall t :: 0 <= t < |Executed(states, steps, w)| ==> Executed(states, steps, w)[t] == ScriptAt(t)
  {
    hide IsRun, Rounds, Executed, ScriptAt;
    states, steps := RoundsAreARun(envs);
    FlashFollowsScript(states, steps, w);
  }

  // ---------------------------------------------------------------- rounds make progress

  /** Every way is looked at. */
  lemma WayIndex(w: WayId) returns (k: nat)
    ensures k < 64 && WayAt(k) == w
  {
    k := 8 * (w % 8) + w / 8;
  }

  /** In an idle state the only steps possible finish operations of ways that do not report done. */
  lemma IdleOnlyFinishes(s: State, polls: Polls, st: Step)
    requires Inv(s) && Idle(s, polls) && Moves(s, st)
    ensures st.FinishStep? && s.fil.queues[st.w] != [] && !polls[st.w]
  {
    hide Inv, CanRetireWrite, CanPassWritten, CanRetireRead, CanIssueRx, CanIssueTx, CanGrab, CanPassInit, CanMap,
         CanFanOut, WayAt, Disciplined;
    TxOwned(s);
    if st.FinishStep? {
      var k := WayIndex(st.w);
    }
  }

  /** Way w has a request and does not report it done. */
  predicate Working(s: State, polls: Polls, w: WayId) {
    s.fil.queues[w] != [] && !polls[w]
  }

  /** A round in which nothing arrives makes progress while a command is in flight and the log has
      room, unless all there is to do is wait for the NAND: then it changes nothing, and some way is
      working. */
  lemma RoundDrops(s: State, e: Env, c: CmdId)
    requires Inv(s) && e.arrival.None? && s.loc[c] != InPool && !Exhausted(s)
    ensures || Rank(Round(s, e)) < Rank(s)
            || (Round(s, e) == s && Idle(s, e.polls) && exists w: WayId :: Working(s, e.polls, w))
  {
    hide Inv, Rank, Round, Path, Idle, Moves, Exhausted;
    var steps := RoundSteps(s, e);
    PathRank(s, steps, Round(s, e));
    if steps == [] {
      NeverStuck(s, c);
      var st :| Moves(s, st);
      IdleOnlyFinishes(s, e.polls, st);
      assert Working(s, e.polls, st.w);
    }
  }

  predicate Drained(s: State) {
    forall c: CmdId :: s.loc[c] == InPool
  }
}
