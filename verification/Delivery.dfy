/** Nothing the host asks for is lost: every command carries what was fetched, every fetched command
    takes effect, and every block of every read is handed to the host before its struct is reused. */
module Delivery {
  import opened Base
  import opened NandAddress
  import opened Model
  import opened WayScript
  import RQ = RequestQueues
  import opened Pipeline
  import opened Invariant
  import opened Preservation
  import opened FilFanOut
  import opened Machine
  import opened Schedule
  import opened RoundSteps

  /** Every live command carries what was fetched. */
  ghost predicate Told(s: State, hs: seq<HostCmd>) {
    && |hs| == s.uid
    && forall c: CmdId :: s.loc[c] != InPool ==> Carries(s.cmds[c], s.note[c], hs)
  }

  predicate Carries(cmd: Cmd, note: Note, hs: seq<HostCmd>) {
    note.uid < |hs| && hs[note.uid] == HostCmd(cmd.tag, cmd.typ, cmd.lba, cmd.nblock, note.payload)
  }

  /** A commit is the effect of the command fetched under its number. */
  predicate CommitOk(e: Commit, hs: seq<HostCmd>) {
    && e.uid < |hs| && e.lba == hs[e.uid].lba
    && if e.Wrote? then hs[e.uid].typ == Wr && e.blocks == hs[e.uid].payload
       else hs[e.uid].typ == Rd && |e.want| == hs[e.uid].nblock
  }

  ghost predicate CommitsOk(hist: seq<Commit>, hs: seq<HostCmd>) {
    forall k :: 0 <= k < |hist| ==> CommitOk(hist[k], hs)
  }

  ghost predicate Committed(hist: seq<Commit>, u: nat) {
    exists k :: 0 <= k < |hist| && hist[k].uid == u
  }

  ghost predicate PastCommitted(s: State) {
    forall c: CmdId :: PastFtl(s.loc[c]) ==> Committed(s.hist, s.note[c].uid)
  }

  /** Block i of the read committed at position k has been handed to the host. */
  ghost predicate SentBlock(sent: set<Sent>, k: nat, i: nat) {
    exists x :: x in sent && x.at == k && x.i == i
  }

  /** While a read is being sent, each of its blocks is outstanding or has been sent. */
  ghost predicate Leaving(s: State) {
    forall c: CmdId, i: nat :: s.loc[c] == InRIssue && i < |s.cmds[c].buf| ==>
      s.cmds[c].buf[i] in s.tx || SentBlock(s.sent, s.note[c].at, i)
  }

  /** Some struct still carries command u. */
  ghost predicate Carried(s: State, u: nat) {
    exists c: CmdId :: s.loc[c] != InPool && s.note[c].uid == u
  }

  ghost predicate AnsweredAt(hist: seq<Commit>, sent: set<Sent>, u: nat, k: nat) {
    && k < |hist| && hist[k].uid == u
    && (hist[k].Looked? ==> forall i: nat :: i < |hist[k].want| ==> SentBlock(sent, k, i))
  }

  ghost predicate Answered(hist: seq<Commit>, sent: set<Sent>, u: nat) {
    exists k: nat :: AnsweredAt(hist, sent, u, k)
  }

  ghost predicate GoneAnswered(s: State) {
    forall u: nat :: u < s.uid && !Carried(s, u) ==> Answered(s.hist, s.sent, u)
  }

  ghost predicate DeliveryInv(s: State, hs: seq<HostCmd>) {
    Told(s, hs) && CommitsOk(s.hist, hs) && PastCommitted(s) && Leaving(s) && GoneAnswered(s)
  }

  // ---------------------------------------------------------------- frames

  /** No struct changes hands, and history only grows. */
  ghost predicate Onward(s: State, t: State) {
    && t.uid == s.uid && s.hist <= t.hist && s.sent <= t.sent
    && forall c: CmdId ::
         && (t.loc[c] == InPool <==> s.loc[c] == InPool)
         && t.note[c].(at := 0) == s.note[c].(at := 0)
         && t.cmds[c].(ndone := 0, buf := []) == s.cmds[c].(ndone := 0, buf := [])
  }

  /** Moreover no command enters a stage this is about. */
  ghost predicate Calm(s: State, t: State) {
    && t.hist == s.hist && t.sent == s.sent && t.tx == s.tx && t.note == s.note
    && forall c: CmdId ::
         && (PastFtl(t.loc[c]) ==> PastFtl(s.loc[c]))
         && (t.loc[c] == InRIssue ==> s.loc[c] == InRIssue && t.cmds[c].buf == s.cmds[c].buf)
  }

  lemma SentMore(sent: set<Sent>, more: set<Sent>, k: nat, i: nat)
    requires sent <= more && SentBlock(sent, k, i)
    ensures SentBlock(more, k, i)
  {
    var x :| x in sent && x.at == k && x.i == i;
    assert x in more;
  }

  lemma AnsweredMore(hist: seq<Commit>, sent: set<Sent>, hist': seq<Commit>, sent': set<Sent>, u: nat)
    requires hist <= hist' && sent <= sent' && Answered(hist, sent, u)
    ensures Answered(hist', sent', u)
  {
    hide SentBlock;
    var k: nat :| AnsweredAt(hist, sent, u, k);
    assert hist'[k] == hist[k];
    if hist[k].Looked? {
      forall i: nat | i < |hist[k].want|
        ensures SentBlock(sent', k, i)
      {
        SentMore(sent, sent', k, i);
      }
    }
    assert AnsweredAt(hist', sent', u, k);
  }

  lemma OnwardKeeps(s: State, t: State, hs: seq<HostCmd>)
    requires DeliveryInv(s, hs) && Onward(s, t) && CommitsOk(t.hist, hs) && PastCommitted(t) && Leaving(t)
    ensures DeliveryInv(t, hs)
  {
    hide CommitsOk, PastCommitted, Leaving, Answered, PastFtl;
    forall c: CmdId | t.loc[c] != InPool
      ensures Carries(t.cmds[c], t.note[c], hs)
    {
      assert Carries(s.cmds[c], s.note[c], hs);
    }
    forall u: nat | u < t.uid && !Carried(t, u)
      ensures Answered(t.hist, t.sent, u)
    {
      StillCarried(s, t, u);
      AnsweredMore(s.hist, s.sent, t.hist, t.sent, u);
    }
  }

  lemma StillCarried(s: State, t: State, u: nat)
    requires Onward(s, t)
    ensures Carried(s, u) ==> Carried(t, u)
  {
    if c: CmdId :| s.loc[c] != InPool && s.note[c].uid == u {
      assert t.loc[c] != InPool && t.note[c].uid == u;
    }
  }

  lemma CalmKeeps(s: State, t: State, hs: seq<HostCmd>)
    requires DeliveryInv(s, hs) && Onward(s, t) && Calm(s, t)
    ensures DeliveryInv(t, hs)
  {
    hide Told, CommitsOk, GoneAnswered, Committed, SentBlock, PastFtl;
    OnwardKeeps(s, t, hs);
  }

  // ---------------------------------------------------------------- steps

  lemma GrabCalm(s: State)
    requires Inv(s) && CanGrab(s)
    ensures Onward(s, Grab(s)) && Calm(s, Grab(s))
  {
    hide CmdsOk, HeadOnly, Counted, Owned, Requested, Paired, OnScript, FlashOk, TableOk, BufsOk, DmaOk, SentOk, HistOk;
    AtHead(s.q, s.loc, InInit);
  }

  lemma PassInitCalm(s: State)
    requires Inv(s) && CanPassInit(s)
    ensures Onward(s, PassInit(s)) && Calm(s, PassInit(s))
  {
    hide CmdsOk, HeadOnly, Counted, Owned, Requested, Paired, OnScript, FlashOk, TableOk, BufsOk, DmaOk, SentOk, HistOk;
    AtHead(s.q, s.loc, InInit);
  }

  lemma IssueRxCalm(s: State)
    requires Inv(s) && CanIssueRx(s)
    ensures Onward(s, IssueRx(s)) && Calm(s, IssueRx(s))
  {
    hide CmdsOk, HeadOnly, Counted, Owned, Requested, Paired, OnScript, FlashOk, TableOk, BufsOk, DmaOk, SentOk, HistOk;
    AtHead(s.q, s.loc, InWWait);
  }

  lemma PassWrittenCalm(s: State)
    requires Inv(s) && CanPassWritten(s)
    ensures Onward(s, PassWritten(s)) && Calm(s, PassWritten(s))
  {
    hide CmdsOk, HeadOnly, Counted, Owned, Requested, Paired, OnScript, FlashOk, TableOk, BufsOk, DmaOk, SentOk, HistOk;
    AtHead(s.q, s.loc, InWIssue);
  }

  lemma RxCalm(s: State, b: BufId)
    requires b in s.rx
    ensures Onward(s, RxArrive(s, b)) && Calm(s, RxArrive(s, b))
  {
  }

  lemma FanOutCalm(s: State)
    requires Inv(s) && CanFanOut(s)
    ensures Onward(s, FanOut(s)) && Calm(s, FanOut(s))
  {
    hide CmdsOk, HeadOnly, Counted, Owned, Requested, Paired, OnScript, FlashOk, TableOk, BufsOk, DmaOk, SentOk, HistOk,
         RQ.EnqueueAll, CmdOps, Pipeline.Unmapped;
    AtHead(s.q, s.loc, InNandWait);
  }

  lemma FinishCalm(s: State, w: WayId)
    requires Inv(s) && CanFinish(s, w)
    ensures Onward(s, Finish(s, w)) && Calm(s, Finish(s, w))
  {
    hide Placed, CmdsOk, HeadOnly, Counted, Owned, Requested, Paired, OnScript, FlashOk, TableOk, BufsOk, DmaOk, SentOk,
         HistOk, RQ.Dequeue, Medium, Memory, Disciplined;
    ReqAt(s, w, 0);
  }

  lemma IssueTxKeepsDelivery(s: State, hs: seq<HostCmd>)
    requires Inv(s) && DeliveryInv(s, hs) && CanIssueTx(s)
    ensures DeliveryInv(IssueTx(s), hs)
  {
    hide CmdsOk, HeadOnly, Counted, Owned, Requested, Paired, OnScript, FlashOk, TableOk, BufsOk, DmaOk, SentOk, HistOk,
         Told, CommitsOk, GoneAnswered, Committed, SentBlock;
    AtHead(s.q, s.loc, InRWait);
    OnwardKeeps(s, IssueTx(s), hs);
  }

  /** A buffer that is sent carries its own block of its own read. */
  lemma TxKeepsDelivery(s: State, b: BufId, hs: seq<HostCmd>)
    requires Inv(s) && DeliveryInv(s, hs) && b in s.tx && s.own[b].Some?
    ensures DeliveryInv(TxLeave(s, b), hs)
  {
    hide Placed, CmdsOk, HeadOnly, Counted, Owned, Requested, Paired, OnScript, FlashOk, TableOk, BufsOk, DmaOk, SentOk, HistOk,
         Told, CommitsOk, GoneAnswered, Committed, PastFtl;
    var t, o := TxLeave(s, b), s.own[b].value;
    var x := Sent(s.note[o.cmd].at, o.i, s.mem[b]);
    assert x in t.sent;
    forall c: CmdId, i: nat | t.loc[c] == InRIssue && i < |t.cmds[c].buf|
      ensures t.cmds[c].buf[i] in t.tx || SentBlock(t.sent, t.note[c].at, i)
    {
      if s.cmds[c].buf[i] == b {
        SlotIs(s, c, i);
      } else if SentBlock(s.sent, s.note[c].at, i) {
        SentMore(s.sent, t.sent, s.note[c].at, i);
      }
    }
    OnwardKeeps(s, t, hs);
  }

  lemma SlotIs(s: State, c: CmdId, i: nat)
    requires Owned(s.own, s.loc, s.cmds, s.bufPool) && s.loc[c] != InPool && i < |s.cmds[c].buf|
    ensures s.own[s.cmds[c].buf[i]] == Some(Slot(c, i))
  {
  }

  lemma MapKeepsDelivery(s: State, hs: seq<HostCmd>)
    requires Inv(s) && DeliveryInv(s, hs) && CanMap(s)
    ensures DeliveryInv(MapCmd(s), hs)
  {
    hide CmdsOk, HeadOnly, Counted, Owned, Requested, Paired, OnScript, FlashOk, TableOk, BufsOk, DmaOk, SentOk, HistOk,
         GoneAnswered, SentBlock, Told, CommitsOk, PastCommitted, Replay, Given, Remapped, NewAddrs, Digits;
    AtHead(s.q, s.loc, InFtlWait);
    MapCommits(s, hs);
    MapPast(s);
    OnwardKeeps(s, MapCmd(s), hs);
  }

  lemma MapCommits(s: State, hs: seq<HostCmd>)
    requires Told(s, hs) && CommitsOk(s.hist, hs) && CanMap(s) && s.loc[s.q.ftlWait[0]] == InFtlWait
    requires CmdsOk(s.loc, s.cmds, s.note, s.hist)
    ensures CommitsOk(MapCmd(s).hist, hs)
  {
    hide CmdsOk, Replay, Given, Remapped, NewAddrs, Digits, CommitOk;
    var c := s.q.ftlWait[0];
    CmdOkAt(s, c);
    assert Carries(s.cmds[c], s.note[c], hs);
    MappedCommit(s, hs);
  }

  lemma MappedCommit(s: State, hs: seq<HostCmd>)
    requires CanMap(s) && Carries(s.cmds[s.q.ftlWait[0]], s.note[s.q.ftlWait[0]], hs)
    requires |s.cmds[s.q.ftlWait[0]].buf| == s.cmds[s.q.ftlWait[0]].nblock
    ensures var t := MapCmd(s); |t.hist| == |s.hist| + 1 && t.hist[..|s.hist|] == s.hist && CommitOk(t.hist[|s.hist|], hs)
  {
    hide Replay, Given, Remapped, NewAddrs, Digits;
  }

  lemma MapPast(s: State)
    requires PastCommitted(s) && CanMap(s) && s.loc[s.q.ftlWait[0]] == InFtlWait
    ensures PastCommitted(MapCmd(s))
  {
    hide Replay, Given, Remapped, NewAddrs, Digits;
    var t, c := MapCmd(s), s.q.ftlWait[0];
    forall d: CmdId | PastFtl(t.loc[d])
      ensures Committed(t.hist, t.note[d].uid)
    {
      if d == c {
        assert |t.hist| == |s.hist| + 1 && t.hist[|s.hist|].uid == s.note[c].uid == t.note[c].uid;
      } else {
        assert PastFtl(s.loc[d]);
        var k :| 0 <= k < |s.hist| && s.hist[k].uid == s.note[d].uid;
        assert t.hist[k] == s.hist[k];
      }
    }
  }

  // ---------------------------------------------------------------- fetching and retiring

  lemma FetchCarried(s: State, h: HostCmd, u: nat)
    requires CanFetch(s) && s.loc[s.q.pool[0]] == InPool
    ensures Carried(s, u) || u == s.uid ==> Carried(Fetch(s, h), u)
  {
    hide EnteredUids, Uids;
    var t, c := Fetch(s, h), s.q.pool[0];
    assert t.loc[c] != InPool && t.note[c].uid == s.uid;
    if d: CmdId :| s.loc[d] != InPool && s.note[d].uid == u {
      assert t.loc[d] != InPool && t.note[d].uid == u;
    }
  }

  lemma FetchKeepsDelivery(s: State, h: HostCmd, hs: seq<HostCmd>)
    requires Inv(s) && DeliveryInv(s, hs) && CanFetch(s)
    ensures DeliveryInv(Fetch(s, h), hs + [h])
  {
    hide CmdsOk, HeadOnly, Counted, Owned, Requested, Paired, OnScript, FlashOk, TableOk, BufsOk, DmaOk, SentOk, HistOk,
         EnteredUids, Uids, Committed, SentBlock, Answered;
    AtHead(s.q, s.loc, InPool);
    var t, c := Fetch(s, h), s.q.pool[0];
    forall k | 0 <= k < |t.hist|
      ensures CommitOk(t.hist[k], hs + [h])
    {
      assert CommitOk(s.hist[k], hs);
    }
    forall u: nat | u < t.uid && !Carried(t, u)
      ensures Answered(t.hist, t.sent, u)
    {
      FetchCarried(s, h, u);
    }
  }

  /** A struct goes back to the pool, its command answered. */
  ghost predicate Returns(s: State, t: State, c: CmdId) {
    && t.uid == s.uid && t.hist == s.hist && t.sent == s.sent && t.tx == s.tx && t.note == s.note && t.cmds == s.cmds
    && t.loc == s.loc[c := InPool]
  }

  lemma ReturnCarried(s: State, t: State, c: CmdId, u: nat)
    requires Returns(s, t, c)
    ensures Carried(s, u) ==> Carried(t, u) || u == s.note[c].uid
  {
    if d: CmdId :| s.loc[d] != InPool && s.note[d].uid == u {
      assert d != c ==> t.loc[d] != InPool && t.note[d].uid == u;
    }
  }

  lemma ReturnKeeps(s: State, t: State, c: CmdId, hs: seq<HostCmd>)
    requires DeliveryInv(s, hs) && Returns(s, t, c) && Answered(s.hist, s.sent, s.note[c].uid)
    ensures DeliveryInv(t, hs)
  {
    hide CommitsOk, Committed, SentBlock, Answered, Carries;
    forall u: nat | u < t.uid && !Carried(t, u)
      ensures Answered(t.hist, t.sent, u)
    {
      ReturnCarried(s, t, c, u);
    }
  }

  lemma RetireReadKeepsDelivery(s: State, hs: seq<HostCmd>)
    requires Inv(s) && DeliveryInv(s, hs) && CanRetireRead(s)
    ensures DeliveryInv(RetireRead(s), hs)
  {
    hide CmdsOk, HeadOnly, Counted, Owned, Requested, Paired, OnScript, FlashOk, TableOk, BufsOk, DmaOk, SentOk, HistOk,
         DeliveryInv, Answered, Release;
    AtHead(s.q, s.loc, InRIssue);
    var c := s.q.rIssue[0];
    AllLeft(s, hs, c);
    ReturnKeeps(s, RetireRead(s), c, hs);
  }

  lemma AllLeft(s: State, hs: seq<HostCmd>, c: CmdId)
    requires CmdsOk(s.loc, s.cmds, s.note, s.hist) && DeliveryInv(s, hs) && s.loc[c] == InRIssue && s.tx == {}
    ensures Answered(s.hist, s.sent, s.note[c].uid)
  {
    hide CmdsOk, Told, CommitsOk, PastCommitted, GoneAnswered, SentBlock;
    CmdOkAt(s, c);
    var k := s.note[c].at;
    forall i: nat | i < |s.hist[k].want|
      ensures SentBlock(s.sent, k, i)
    {
      assert s.cmds[c].buf[i] !in s.tx;
    }
    assert AnsweredAt(s.hist, s.sent, s.note[c].uid, k);
  }

  lemma RetireWriteKeepsDelivery(s: State, hs: seq<HostCmd>)
    requires Inv(s) && DeliveryInv(s, hs) && CanRetireWrite(s)
    ensures DeliveryInv(RetireWrite(s), hs)
  {
    hide CmdsOk, HeadOnly, Counted, Owned, Requested, Paired, OnScript, FlashOk, TableOk, BufsOk, DmaOk, SentOk, HistOk,
         DeliveryInv, Answered, Release;
    AtHead(s.q, s.loc, InDone);
    var c := s.q.done[0];
    WriteAnswered(s, hs, c);
    ReturnKeeps(s, RetireWrite(s), c, hs);
  }

  lemma WriteAnswered(s: State, hs: seq<HostCmd>, c: CmdId)
    requires CmdsOk(s.loc, s.cmds, s.note, s.hist) && DeliveryInv(s, hs) && s.loc[c] == InDone
    ensures Answered(s.hist, s.sent, s.note[c].uid)
  {
    hide CmdsOk, Leaving, GoneAnswered;
    CmdOkAt(s, c);
    assert Carries(s.cmds[c], s.note[c], hs);
    assert Committed(s.hist, s.note[c].uid);
    var k :| 0 <= k < |s.hist| && s.hist[k].uid == s.note[c].uid;
    assert CommitOk(s.hist[k], hs);
    assert AnsweredAt(s.hist, s.sent, s.note[c].uid, k);
  }

  // ---------------------------------------------------------------- every run

  lemma StepDelivers(s: State, st: Step, hs: seq<HostCmd>)
    requires Inv(s) && DeliveryInv(s, hs) && Enabled(s, st)
    ensures DeliveryInv(Do(s, st), hs + (if st.FetchStep? then [st.h] else []))
  {
    hide Inv, DeliveryInv, Onward, Calm, Fetch, Grab, PassInit, IssueRx, IssueTx, PassWritten, RetireRead, RetireWrite, RxArrive,
         TxLeave, MapCmd, FanOut, Finish, CanFetch, CanGrab, CanMap, CanFanOut, CanFinish;
    assert hs + [] == hs;
    match st
    case FetchStep(h) => FetchKeepsDelivery(s, h, hs);
    case GrabStep =>
      GrabCalm(s);
      CalmKeeps(s, Do(s, st), hs);
    case RxStep(b) =>
      RxCalm(s, b);
      CalmKeeps(s, Do(s, st), hs);
    case FanOutStep =>
      FanOutCalm(s);
      CalmKeeps(s, Do(s, st), hs);
    case FinishStep(w) =>
      FinishCalm(s, w);
      CalmKeeps(s, Do(s, st), hs);
    case IssueTxStep => IssueTxKeepsDelivery(s, hs);
    case TxStep(b) => TxKeepsDelivery(s, b, hs);
    case MapStep => MapKeepsDelivery(s, hs);
    case RetireReadStep => RetireReadKeepsDelivery(s, hs);
    case RetireWriteStep => RetireWriteKeepsDelivery(s, hs);
    case PassInitStep =>
      PassInitCalm(s);
      CalmKeeps(s, Do(s, st), hs);
    case IssueRxStep =>
      IssueRxCalm(s);
      CalmKeeps(s, Do(s, st), hs);
    case PassWrittenStep =>
      PassWrittenCalm(s);
      CalmKeeps(s, Do(s, st), hs);
  }

  lemma StartDelivers()
    ensures DeliveryInv(Start(), [])
  {
  }

  lemma {:induction false} EveryRunDelivers(states: seq<State>, steps: seq<Step>, n: nat)
    requires IsRun(states, steps) && n < |states|
    ensures Inv(states[n]) && DeliveryInv(states[n], FetchedBy(steps[..n]))
    decreases n
  {
    hide Inv, DeliveryInv, Enabled, Do, Start;
    if n == 0 {
      StartHolds();
      StartDelivers();
    } else {
      EveryRunDelivers(states, steps, n - 1);
      StepKeeps(states[n - 1], steps[n - 1]);
      StepDelivers(states[n - 1], steps[n - 1], FetchedBy(steps[..n - 1]));
      assert steps[..n][..n - 1] == steps[..n - 1];
    }
  }

  // ---------------------------------------------------------------- what it means

  /** Block i of the read of lba committed at position k has been handed to the host, with the block on
      the disk at that position. */
  ghost predicate Got(s: State, k: nat, lba: nat, i: nat) {
    exists x :: x in s.sent && x.at == k && x.i == i && k < |s.hist| && Due(s.hist, k, lba + i, x.got)
  }

  predicate Due(hist: seq<Commit>, k: nat, a: nat, d: Block)
    requires k < |hist|
  {
    Lookup(Replay(hist[..k]), a).GetOr(d) == d
  }

  /** In every run, a fetched command that no struct carries any more has taken effect as it was
      fetched: a write stored its payload at its address; a read has been answered in full, each block
      of it with what the disk held at its address when it took effect. */
  lemma FetchedIsAnswered(states: seq<State>, steps: seq<Step>, n: nat, u: nat) returns (k: nat)
    requires IsRun(states, steps) && n < |states| && u < |FetchedBy(steps[..n])|
    requires forall c: CmdId :: states[n].loc[c] != InPool ==> states[n].note[c].uid != u
    ensures var s, h := states[n], FetchedBy(steps[..n])[u];
            && k < |s.hist| && s.hist[k].uid == u
            && (h.typ == Wr ==> s.hist[k] == Wrote(u, h.lba, h.payload))
            && (h.typ == Rd ==> s.hist[k].Looked? && forall i: nat :: i < h.nblock ==> Got(s, k, h.lba, i))
  {
    hide Start, Enabled, Do, FetchedBy, Inv, SentBlock, Got;
    EveryRunDelivers(states, steps, n);
    var s, hs := states[n], FetchedBy(steps[..n]);
    assert !Carried(s, u);
    assert Answered(s.hist, s.sent, u);
    k :| AnsweredAt(s.hist, s.sent, u, k);
    assert CommitOk(s.hist[k], hs);
    forall i: nat | i < hs[u].nblock && hs[u].typ == Rd
      ensures Got(s, k, hs[u].lba, i)
    {
      SentIsGot(s, k, i);
    }
  }

  lemma SentIsGot(s: State, k: nat, i: nat)
    requires Inv(s) && k < |s.hist| && s.hist[k].Looked? && i < |s.hist[k].want| && SentBlock(s.sent, k, i)
    ensures Got(s, k, s.hist[k].lba, i)
  {
    hide Placed, CmdsOk, HeadOnly, Counted, Owned, Requested, Paired, OnScript, FlashOk, TableOk, BufsOk, DmaOk, Replay;
    var x :| x in s.sent && x.at == k && x.i == i;
    assert s.hist[k].want[i] == Lookup(Replay(s.hist[..k]), s.hist[k].lba + i);
  }

  /** And nothing else takes effect: every commit is that of a fetched command, as it was fetched; and a
      command in flight is still what was fetched. */
  lemma CommitsAreFetched(states: seq<State>, steps: seq<Step>, n: nat)
    requires IsRun(states, steps) && n < |states|
    ensures forall k :: 0 <= k < |states[n].hist| ==> CommitOk(states[n].hist[k], FetchedBy(steps[..n]))
    ensures forall c: CmdId :: states[n].loc[c] != InPool ==> Carries(states[n].cmds[c], states[n].note[c], FetchedBy(steps[..n]))
  {
    hide Start, Enabled, Do, FetchedBy, Inv, CommitOk, Carries;
    EveryRunDelivers(states, steps, n);
  }

  /** So it is for the main loop: every command that arrived when there was room for it has been
      answered, in any state after any rounds in which no struct carries it any more. */
  lemma RoundsAnswer(envs: seq<Env>, u: nat) returns (k: nat)
    requires ValidEnvs(envs) && u < |Arrived(envs)|
    requires forall c: CmdId :: Rounds(envs).loc[c] != InPool ==> Rounds(envs).note[c].uid != u
    ensures var s, h := Rounds(envs), Arrived(envs)[u];
            && k < |s.hist| && s.hist[k].uid == u
            && (h.typ == Wr ==> s.hist[k] == Wrote(u, h.lba, h.payload))
            && (h.typ == Rd ==> s.hist[k].Looked? && forall i: nat :: i < h.nblock ==> Got(s, k, h.lba, i))
  {
    hide IsRun, Rounds, Arrived, Got, ValidEnvs;
    var states, steps := RoundsAreARun(envs);
    RunShape(states, steps);
    assert steps[..|steps|] == steps;
    k := FetchedIsAnswered(states, steps, |steps|, u);
  }
}
