/** The pipeline cannot get stuck: as long as a command is in flight some step is possible, and
    without new arrivals only finitely many steps are. */
module Progress {
  import opened Base
  import opened NandAddress
  import opened Model
  import opened WayScript
  import RQ = RequestQueues
  import opened Pipeline
  import opened Invariant
  import opened Preservation
  import opened FilFanOut
  import opened FilFinish
  import opened Machine
  import opened Theorems

  predicate Moves(s: State, st: Step) {
    !st.FetchStep? && Enabled(s, st)
  }

  ghost predicate CanMove(s: State) {
    exists st :: Moves(s, st)
  }

  // ---------------------------------------------------------------- some step is possible

  lemma DoneMoves(s: State)
    requires s.q.done != []
    ensures CanMove(s)
  {
    assert Moves(s, RetireWriteStep);
  }

  lemma RIssueMoves(s: State)
    requires DmaOk(s.rx, s.tx, s.own, s.loc) && s.q.rIssue != []
    ensures CanMove(s)
  {
    if s.tx == {} {
      assert Moves(s, RetireReadStep);
    } else {
      var b :| b in s.tx;
      TxOwner(s, b);
      assert Moves(s, TxStep(b));
    }
  }

  lemma TxOwner(s: State, b: BufId)
    requires DmaOk(s.rx, s.tx, s.own, s.loc) && b in s.tx
    ensures s.own[b].Some?
  {
  }

  lemma RWaitMoves(s: State)
    requires DmaOk(s.rx, s.tx, s.own, s.loc) && s.q.rWait != []
    ensures CanMove(s)
  {
    if Full(s.q.rIssue) {
      RIssueMoves(s);
    } else {
      assert Moves(s, IssueTxStep);
    }
  }

  lemma FilMoves(s: State, c: CmdId)
    requires Inv(s) && s.loc[c] == InFil
    ensures CanMove(s)
  {
    hide Inv;
    FilHasRequest(s, c);
    var w: WayId, k: nat :| k < |s.fil.queues[w]| && RequestOf(s, c, w, k);
    AlwaysDisciplined(s, w);
    assert Moves(s, FinishStep(w));
  }

  lemma NandWaitMoves(s: State)
    requires Inv(s) && s.q.nandWait != []
    ensures CanMove(s)
  {
    hide Inv;
    FanOutNeverStarves(s);
    assert Moves(s, FanOutStep);
  }

  lemma FtlWaitMoves(s: State)
    requires Inv(s) && s.q.ftlWait != [] && !Exhausted(s)
    ensures CanMove(s)
  {
    if Full(s.q.nandWait) {
      NandWaitMoves(s);
    } else {
      HeadCmdOk(s, InFtlWait);
      assert Moves(s, MapStep);
    }
  }

  lemma HeadCmdOk(s: State, l: Loc)
    requires Placed(s.q, s.loc) && CmdsOk(s.loc, s.cmds, s.note, s.hist) && l != InFil && QueueAt(s.q, l) != []
    ensures var c := QueueAt(s.q, l)[0]; s.loc[c] == l && CmdOk(l, s.cmds[c], s.note[c], s.hist)
  {
    AtHead(s.q, s.loc, l);
    CmdOkAt(s, QueueAt(s.q, l)[0]);
  }

  lemma WIssueMoves(s: State)
    requires Inv(s) && s.q.wIssue != [] && !Exhausted(s)
    ensures CanMove(s)
  {
    hide Inv;
    if Full(s.q.ftlWait) {
      FtlWaitMoves(s);
    } else if s.rx == map[] {
      assert Moves(s, PassWrittenStep);
    } else {
      var b :| b in s.rx;
      assert Moves(s, RxStep(b));
    }
  }

  lemma WWaitMoves(s: State)
    requires Inv(s) && s.q.wWait != [] && !Exhausted(s)
    ensures CanMove(s)
  {
    hide Inv;
    if Full(s.q.wIssue) {
      WIssueMoves(s);
    } else {
      assert Moves(s, IssueRxStep);
    }
  }

  lemma StageMoves(s: State, c: CmdId)
    requires Inv(s) && s.loc[c] != InPool && s.loc[c] != InInit && !Exhausted(s)
    ensures CanMove(s)
  {
    InItsQueue(s, c);
    hide Placed, CmdsOk, HeadOnly, Counted, Owned, Requested, Paired, OnScript, FlashOk, TableOk, BufsOk, DmaOk,
         SentOk, HistOk;
    match s.loc[c]
    case InWWait => WWaitMoves(s);
    case InWIssue => WIssueMoves(s);
    case InFtlWait => FtlWaitMoves(s);
    case InNandWait => NandWaitMoves(s);
    case InFil => FilMoves(s, c);
    case InRWait => RWaitMoves(s);
    case InRIssue => RIssueMoves(s);
    case InDone => DoneMoves(s);
  }

  lemma InItsQueue(s: State, c: CmdId)
    requires Placed(s.q, s.loc)
    ensures s.loc[c] != InFil ==> c in QueueAt(s.q, s.loc[c])
  {
    if s.loc[c] != InFil {
      assert Lists(QueueAt(s.q, s.loc[c]), s.loc, s.loc[c]);
    }
  }

  /** If the pool cannot serve one command, some buffer is held. */
  lemma SomeBufferHeld(pool: seq<BufId>, own: OwnMem) returns (b: BufId)
    requires Lists(pool, own, None) && |pool| < 8192
    ensures own[b].Some?
  {
    if forall b: BufId :: own[b] == None {
      var all := set x: BufId | x in pool;
      assert forall x: BufId :: x in pool;
      UpTo(StartBufs());
      ListSize(pool, all);
      ListSize(StartBufs(), all);
      assert false;
    }
    b :| own[b].Some?;
  }

  /** A command waiting for buffers waits for commands further down the pipeline, because only
      the head of init_q can hold buffers already. */
  lemma InitMoves(s: State)
    requires Inv(s) && s.q.init != [] && !Exhausted(s)
    ensures CanMove(s)
  {
    HeadCmdOk(s, InInit);
    var c := s.q.init[0];
    if s.cmds[c].buf != [] {
      PassInitMoves(s);
    } else if s.cmds[c].nblock <= |s.bufPool| {
      assert Moves(s, GrabStep);
    } else {
      var b := SomeBufferHeld(s.bufPool, s.own);
      HolderIsDownstream(s, b);
      StageMoves(s, s.own[b].value.cmd);
    }
  }

  lemma PassInitMoves(s: State)
    requires Inv(s) && s.q.init != [] && s.cmds[s.q.init[0]].buf != [] && !Exhausted(s)
    ensures CanMove(s)
  {
    hide Inv;
    if CanPassInit(s) {
      assert Moves(s, PassInitStep);
    } else if s.cmds[s.q.init[0]].typ == Rd {
      FtlWaitMoves(s);
    } else {
      WWaitMoves(s);
    }
  }

  lemma HolderIsDownstream(s: State, b: BufId)
    requires Owned(s.own, s.loc, s.cmds, s.bufPool) && Placed(s.q, s.loc) && HeadOnly(s.q.init, s.cmds)
    requires s.own[b].Some? && s.q.init != [] && s.cmds[s.q.init[0]].buf == []
    ensures s.loc[s.own[b].value.cmd] != InPool && s.loc[s.own[b].value.cmd] != InInit
  {
    var c := s.own[b].value.cmd;
    if s.loc[c] == InInit {
      InItsQueue(s, c);
    }
  }

  /** Deadlock freedom: while any command is in flight, some step other than fetching is possible,
      unless the device is out of blocks. */
  lemma NeverStuck(s: State, c: CmdId)
    requires Inv(s) && s.loc[c] != InPool && !Exhausted(s)
    ensures CanMove(s)
  {
    if s.loc[c] == InInit {
      InItsQueue(s, c);
      InitMoves(s);
    } else {
      StageMoves(s, c);
    }
  }

  // ---------------------------------------------------------------- every step makes progress

  function Bufless(init: seq<CmdId>, cmds: CmdMem): nat {
    if init == [] then 0
    else (if cmds[init[0]].buf == [] then 1 else 0) + Bufless(init[1..], cmds)
  }

  ghost function FilSet(loc: LocMem): set<nat> {
    set c: nat | 0 <= c < 512 && loc[c] == InFil
  }

  /** Every stage weighs more than all later ones with the requests and transfers they cause. */
  ghost function Rank(s: State): nat {
    9000 * |s.q.init| + Bufless(s.q.init, s.cmds) + 8000 * |s.q.wWait| + 7000 * |s.q.wIssue|
    + 6000 * |s.q.ftlWait| + 5000 * |s.q.nandWait| + 4000 * |FilSet(s.loc)| + 3000 * |s.q.rWait|
    + 2000 * |s.q.rIssue| + 1000 * |s.q.done| + |s.rx| + |s.tx| + Listings(s.fil)
  }

  /** The number of requests not in the pool. */
  function Listings(f: RQ.Fil): nat {
    if |f.reqPool| <= 16384 then 16384 - |f.reqPool| else 0
  }

  lemma {:induction false} BuflessSame(q: seq<CmdId>, cmds: CmdMem, cmds': CmdMem)
    requires forall c: CmdId :: c in q ==> cmds'[c].buf == cmds[c].buf
    ensures Bufless(q, cmds') == Bufless(q, cmds)
    decreases q
  {
    if q == [] {
    } else {
      assert q[0] in q;
      forall c: CmdId | c in q[1..]
        ensures c in q
      {
      }
      BuflessSame(q[1..], cmds, cmds');
    }
  }

  lemma FilSetSame(loc: LocMem, c: CmdId, l: Loc)
    requires loc[c] != InFil && l != InFil
    ensures FilSet(loc[c := l]) == FilSet(loc)
  {
  }

  lemma FilSetIn(loc: LocMem, c: CmdId)
    requires loc[c] != InFil
    ensures |FilSet(loc[c := InFil])| == |FilSet(loc)| + 1
  {
    assert FilSet(loc[c := InFil]) == FilSet(loc) + {c};
  }

  lemma FilSetOut(loc: LocMem, c: CmdId, l: Loc)
    requires loc[c] == InFil && l != InFil
    ensures |FilSet(loc[c := l])| == |FilSet(loc)| - 1
  {
    assert FilSet(loc) == FilSet(loc[c := l]) + {c as nat};
  }

  lemma {:induction false} SetOfSeq<T>(q: seq<T>, s: set<T>)
    requires forall x :: x in s ==> x in q
    ensures |s| <= |q|
    decreases q
  {
    if q == [] {
      assert s == {};
    } else {
      var n := |q| - 1;
      forall x | x in s - {q[n]}
        ensures x in q[..n]
      {
      }
      SetOfSeq(q[..n], s - {q[n]});
    }
  }

  lemma {:induction false} CmdOpsShort(c: CmdId, typ: CmdType, buf: seq<BufId>, a: AddrMem)
    ensures |CmdOps(c, typ, buf, a)| <= 2 * |buf|
    decreases buf
  {
    if buf == [] {
    } else {
      CmdOpsShort(c, typ, buf[..|buf| - 1], a);
    }
  }

  lemma PoolBounded(f: RQ.Fil)
    requires RQ.Valid(f)
    ensures |f.reqPool| <= 16384
  {
    UpTo(StartFil().reqPool);
    SetOfSeq(StartFil().reqPool, RQ.FreeKeys(f.keyAt));
  }

  lemma InitUntouched(s: State, c: CmdId)
    requires Placed(s.q, s.loc) && s.loc[c] != InInit
    ensures c !in s.q.init
  {
    assert Lists(QueueAt(s.q, InInit), s.loc, InInit);
  }

  lemma GrabRank(s: State)
    requires Placed(s.q, s.loc) && CmdsOk(s.loc, s.cmds, s.note, s.hist) && CanGrab(s)
    ensures Rank(Grab(s)) < Rank(s)
  {
    HeadCmdOk(s, InInit);
    var q := s.q.init;
    assert Lists(QueueAt(s.q, InInit), s.loc, InInit);
    BuflessSame(q[1..], s.cmds, Grab(s).cmds);
  }

  lemma PassInitRank(s: State)
    requires Placed(s.q, s.loc) && CanPassInit(s)
    ensures Rank(PassInit(s)) < Rank(s)
  {
    AtHead(s.q, s.loc, InInit);
    FilSetSame(s.loc, s.q.init[0], PassInit(s).loc[s.q.init[0]]);
  }

  lemma IssueRxRank(s: State)
    requires Placed(s.q, s.loc) && CmdsOk(s.loc, s.cmds, s.note, s.hist) && CanIssueRx(s)
    ensures Rank(IssueRx(s)) < Rank(s)
  {
    hide Placed, CmdsOk, Bufless, FilSet, Listings;
    HeadCmdOk(s, InWWait);
    var c, t := s.q.wWait[0], IssueRx(s);
    FilSetSame(s.loc, c, InWIssue);
    IssuedFew(s.rx, t.rx, s.cmds[c].buf);
  }

  /** A command's descriptors are no more than its buffers. */
  lemma IssuedFew(rx: map<BufId, Block>, rx': map<BufId, Block>, buf: seq<BufId>)
    requires rx.Keys <= rx'.Keys && forall b :: b in rx' && b !in rx ==> b in buf
    ensures |rx'| <= |rx| + |buf|
  {
    var added := rx'.Keys - rx.Keys;
    SetOfSeq(buf, added);
    assert rx'.Keys == rx.Keys + added;
  }

  lemma IssueTxRank(s: State)
    requires Placed(s.q, s.loc) && CmdsOk(s.loc, s.cmds, s.note, s.hist) && CanIssueTx(s)
    ensures Rank(IssueTx(s)) < Rank(s)
  {
    HeadCmdOk(s, InRWait);
    var c, t := s.q.rWait[0], IssueTx(s);
    FilSetSame(s.loc, c, InRIssue);
    var added := t.tx - s.tx;
    SetOfSeq(s.cmds[c].buf, added);
    assert t.tx == s.tx + added;
  }

  lemma RetireRank(s: State)
    requires Placed(s.q, s.loc)
    ensures CanPassWritten(s) ==> Rank(PassWritten(s)) < Rank(s)
    ensures CanRetireRead(s) ==> Rank(RetireRead(s)) < Rank(s)
    ensures CanRetireWrite(s) ==> Rank(RetireWrite(s)) < Rank(s)
  {
    if CanPassWritten(s) {
      AtHead(s.q, s.loc, InWIssue);
      FilSetSame(s.loc, s.q.wIssue[0], InFtlWait);
    }
    if CanRetireRead(s) {
      AtHead(s.q, s.loc, InRIssue);
      FilSetSame(s.loc, s.q.rIssue[0], InPool);
    }
    if CanRetireWrite(s) {
      AtHead(s.q, s.loc, InDone);
      FilSetSame(s.loc, s.q.done[0], InPool);
    }
  }

  lemma TransferRank(s: State, b: BufId)
    ensures b in s.rx ==> Rank(RxArrive(s, b)) < Rank(s)
    ensures b in s.tx && s.own[b].Some? ==> Rank(TxLeave(s, b)) < Rank(s)
  {
    if b in s.rx {
      assert (s.rx - {b}).Keys == s.rx.Keys - {b};
    }
  }

  lemma MapRank(s: State)
    requires Placed(s.q, s.loc) && CanMap(s)
    ensures Rank(MapCmd(s)) < Rank(s)
  {
    hide Replay, Given, Remapped;
    AtHead(s.q, s.loc, InFtlWait);
    FilSetSame(s.loc, s.q.ftlWait[0], InNandWait);
  }

  lemma FanOutRank(s: State)
    requires Placed(s.q, s.loc) && CmdsOk(s.loc, s.cmds, s.note, s.hist) && RQ.Valid(s.fil) && CanFanOut(s)
    ensures Rank(FanOut(s)) < Rank(s)
  {
    hide CmdOps, RQ.Valid;
    HeadCmdOk(s, InNandWait);
    var c, t := s.q.nandWait[0], FanOut(s);
    CmdOpsShort(c, s.cmds[c].typ, s.cmds[c].buf, s.bufAddr);
    PoolBounded(s.fil);
    InitUntouched(s, c);
    BuflessSame(s.q.init, s.cmds, t.cmds);
    if t.loc[c] == InFil {
      FilSetIn(s.loc, c);
    } else {
      FilSetSame(s.loc, c, InRWait);
    }
  }

  lemma FinishRank(s: State, w: WayId)
    requires Placed(s.q, s.loc) && Requested(s.fil, s.own, s.loc, s.cmds, s.bufAddr) && CanFinish(s, w)
    ensures Rank(Finish(s, w)) < Rank(s)
  {
    hide Placed, Requested, Disciplined, Medium, Memory, RQ.Valid, Bufless;
    HeadFacts(s, w);
    var c, t := HeadOp(s, w).cmd, Finish(s, w);
    PoolBounded(RQ.Dequeue(s.fil, w));
    InitUntouched(s, c);
    BuflessSame(s.q.init, s.cmds, t.cmds);
    if t.loc != s.loc {
      FilSetOut(s.loc, c, t.loc[c]);
    }
  }

  /** Every step except fetching strictly lowers the rank. */
  lemma RankDrops(s: State, st: Step)
    requires Inv(s) && Moves(s, st)
    ensures Rank(Do(s, st)) < Rank(s)
  {
    hide CmdsOk, HeadOnly, Counted, Owned, Requested, Paired, OnScript, FlashOk, TableOk, BufsOk, DmaOk, SentOk,
         HistOk, Placed, Rank;
    match st
    case GrabStep => GrabRank(s);
    case PassInitStep => PassInitRank(s);
    case IssueRxStep => IssueRxRank(s);
    case IssueTxStep => IssueTxRank(s);
    case PassWrittenStep => RetireRank(s);
    case RetireReadStep => RetireRank(s);
    case RetireWriteStep => RetireRank(s);
    case RxStep(b) => TransferRank(s, b);
    case TxStep(b) => TransferRank(s, b);
    case MapStep => MapRank(s);
    case FanOutStep =>
      RequestedValid(s);
      FanOutRank(s);
    case FinishStep(w) => FinishRank(s, w);
  }

  /** A stretch of a run without fetches is no longer than the rank it starts from, and where it
      can go no further every command has been returned to the pool (or the device is full). */
  lemma {:induction false} Drains(states: seq<State>, steps: seq<Step>)
    requires |states| == |steps| + 1 && Inv(states[0])
    requires forall i :: 0 <= i < |steps| ==> Moves(states[i], steps[i]) && states[i + 1] == Do(states[i], steps[i])
    ensures |steps| <= Rank(states[0])
    ensures var end := states[|steps|];
            !CanMove(end) && !Exhausted(end) ==> forall c: CmdId :: end.loc[c] == InPool
    decreases |steps|
  {
    hide Inv, Rank, Do, Enabled, CanMove, Exhausted;
    if steps == [] {
      var end := states[0];
      forall c: CmdId | !CanMove(end) && !Exhausted(end)
        ensures end.loc[c] == InPool
      {
        if end.loc[c] != InPool {
          NeverStuck(end, c);
        }
      }
    } else {
      RankDrops(states[0], steps[0]);
      StepKeeps(states[0], steps[0]);
      Drains(states[1..], steps[1..]);
    }
  }

  // ---------------------------------------------------------------- how long that can take

  const MAX_RANK: nat := 23073280

  lemma {:induction false} BuflessBelow(init: seq<CmdId>, cmds: CmdMem)
    ensures Bufless(init, cmds) <= |init|
    decreases init
  {
    if init == [] {
    } else {
      BuflessBelow(init[1..], cmds);
    }
  }

  lemma QueueBelow(q: Queues, loc: LocMem, l: Loc)
    requires Placed(q, loc) && l != InFil
    ensures |QueueAt(q, l)| <= 512
  {
    var ids: seq<nat> := QueueAt(q, l);
    assert Lists(ids, loc, l);
    ListBelow(ids, 512);
  }

  lemma TransfersBelow(rx: map<BufId, Block>, tx: set<BufId>)
    ensures |rx| <= 8192 && |tx| <= 8192
  {
    var keys: set<nat>, ids: set<nat> := rx.Keys, tx;
    BelowSize(keys, 8192);
    BelowSize(ids, 8192);
  }

  /** Wherever the pipeline is, the rank is below a fixed bound. */
  lemma RankBounded(s: State)
    requires Inv(s)
    ensures Rank(s) <= MAX_RANK
  {
    hide CmdsOk, HeadOnly, Counted, Requested, Owned, Paired, OnScript, FlashOk, TableOk, BufsOk, DmaOk, SentOk, HistOk,
         Placed, Bufless;
    BuflessBelow(s.q.init, s.cmds);
    QueueBelow(s.q, s.loc, InInit);
    QueueBelow(s.q, s.loc, InWWait);
    QueueBelow(s.q, s.loc, InWIssue);
    QueueBelow(s.q, s.loc, InFtlWait);
    QueueBelow(s.q, s.loc, InNandWait);
    QueueBelow(s.q, s.loc, InRWait);
    QueueBelow(s.q, s.loc, InRIssue);
    QueueBelow(s.q, s.loc, InDone);
    BelowSize(FilSet(s.loc), 512);
    TransfersBelow(s.rx, s.tx);
  }
}
