/** Commands take effect in an order the host cannot contradict. A write is completed to the host
    by its last receive transfer, long before it leaves ftl_wait_q; still, a command fetched after
    that moment takes effect later, because dmadone runs before init in every hil_run and stops
    early only when ftl_wait_q is full, which keeps init from adding to it. */
module RealTimeOrder {
  import opened Base
  import opened Model
  import RQ = RequestQueues
  import opened Pipeline
  import opened Invariant
  import opened Preservation
  import opened Machine
  import opened Schedule
  import Theorems
  import FilFinish
  import opened NandAddress

  // ---------------------------------------------------------------- serial numbers

  predicate Unentered(l: Loc) {
    l.InInit? || l.InWWait? || l.InWIssue?
  }

  /** Serial numbers are never reused: those that entered ftl_wait_q are distinct, and differ from
      those of commands that have not entered it yet, which are distinct too. */
  ghost predicate Serial(s: State) {
    && (forall c: CmdId :: Unentered(s.loc[c]) ==> s.note[c].uid < s.uid && s.note[c].uid !in EnteredUids(s.entered))
    && (forall c: CmdId, x: CmdId :: Unentered(s.loc[c]) && Unentered(s.loc[x]) && c != x ==> s.note[c].uid != s.note[x].uid)
    && (forall k :: 0 <= k < |s.entered| ==> s.entered[k].uid < s.uid)
    && (forall j, k :: 0 <= j < k < |s.entered| ==> s.entered[j].uid != s.entered[k].uid)
  }

  // ---------------------------------------------------------------- what precedes what

  /** Everything that was possibly complete when an entered command was fetched entered before it. */
  ghost predicate EnteredInOrder(e: seq<Entry>) {
    forall k, u :: 0 <= k < |e| && u in e[k].before ==> u in EnteredUids(e[..k])
  }

  /** Everything possibly complete when a waiting command was fetched has entered, or is a write
      further along in write_dma_issue_q. */
  ghost predicate IssuedInOrder(s: State) {
    && (forall c: CmdId :: s.loc[c] == InInit || s.loc[c] == InWWait ==>
          s.note[c].before <= EnteredUids(s.entered) + Uids(s.q.wIssue, s.note))
    && (forall k :: 0 <= k < |s.q.wIssue| ==>
          s.note[s.q.wIssue[k]].before <= EnteredUids(s.entered) + Uids(s.q.wIssue[..k], s.note))
  }

  /** ftl_wait_q is a FIFO: commands take effect in the order they entered it. */
  ghost predicate CommitsInOrder(s: State) {
    && |s.entered| == |s.hist| + |s.q.ftlWait|
    && (forall k :: 0 <= k < |s.hist| ==> s.hist[k].uid == s.entered[k].uid)
    && (forall k :: 0 <= k < |s.q.ftlWait| ==> s.note[s.q.ftlWait[k]].uid == s.entered[|s.hist| + k].uid)
  }

  ghost predicate Ordered(s: State) {
    EnteredInOrder(s.entered) && IssuedInOrder(s) && CommitsInOrder(s) && Serial(s)
  }

  /** The state in which init may run: either it cannot pass a read on, or nothing that was possibly
      complete when a command of init_q was fetched is still missing from ftl_wait_q. */
  ghost predicate InitReady(s: State) {
    Full(s.q.ftlWait) || forall c: CmdId :: s.loc[c] == InInit ==> s.note[c].before <= EnteredUids(s.entered)
  }

  lemma EnteredPush(e: seq<Entry>, x: Entry)
    ensures EnteredUids(e + [x]) == EnteredUids(e) + {x.uid}
  {
    var f := e + [x];
    forall u | u in EnteredUids(e) + {x.uid}
      ensures u in EnteredUids(f)
    {
      if u in EnteredUids(e) {
        var k: nat :| 0 <= k < |e| && e[k].uid == u;
        assert f[k].uid == u;
      } else {
        assert f[|e|].uid == u;
      }
    }
  }

  lemma UidsPush(q: seq<CmdId>, c: CmdId, note: NoteMem)
    ensures Uids(q + [c], note) == Uids(q, note) + {note[c].uid}
  {
    var f := q + [c];
    forall u | u in Uids(q, note) + {note[c].uid}
      ensures u in Uids(f, note)
    {
      if u in Uids(q, note) {
        var k: nat :| 0 <= k < |q| && note[q[k]].uid == u;
        assert note[f[k]].uid == u;
      } else {
        assert note[f[|q|]].uid == u;
      }
    }
  }

  lemma UidsPop(q: seq<CmdId>, note: NoteMem)
    requires q != []
    ensures Uids(q, note) == {note[q[0]].uid} + Uids(q[1..], note)
  {
    forall u | u in Uids(q, note)
      ensures u in {note[q[0]].uid} + Uids(q[1..], note)
    {
      var k: nat :| 0 <= k < |q| && note[q[k]].uid == u;
      if k > 0 {
        assert note[q[1..][k - 1]].uid == u;
      }
    }
    forall u | u in {note[q[0]].uid} + Uids(q[1..], note)
      ensures u in Uids(q, note)
    {
      if u in Uids(q[1..], note) {
        var k: nat :| 0 <= k < |q| - 1 && note[q[1..][k]].uid == u;
        assert note[q[k + 1]].uid == u;
      }
    }
  }

  lemma UidsSame(q: seq<CmdId>, note: NoteMem, note': NoteMem)
    requires forall c: CmdId :: c in q ==> note'[c].uid == note[c].uid
    ensures Uids(q, note') == Uids(q, note)
  {
    forall k: nat | k < |q|
      ensures note'[q[k]].uid == note[q[k]].uid
    {
      assert q[k] in q;
    }
  }

  // ---------------------------------------------------------------- steps that enter ftl_wait_q

  /** Command c enters ftl_wait_q, nothing possibly complete at its fetch missing. */
  ghost predicate Enters(s: State, t: State, c: CmdId) {
    && Unentered(s.loc[c]) && s.note[c].before <= EnteredUids(s.entered)
    && t.entered == s.entered + [Entry(s.note[c].uid, s.note[c].before)]
    && t.loc == s.loc[c := InFtlWait] && t.note == s.note && t.hist == s.hist && t.uid == s.uid
    && t.q.ftlWait == s.q.ftlWait + [c]
  }

  lemma EntersOrder(s: State, t: State, c: CmdId)
    requires EnteredInOrder(s.entered) && Enters(s, t, c)
    ensures EnteredInOrder(t.entered)
  {
    forall k, u | 0 <= k < |t.entered| && u in t.entered[k].before
      ensures u in EnteredUids(t.entered[..k])
    {
      assert t.entered[..|s.entered|] == s.entered;
      if k < |s.entered| {
        assert t.entered[..k] == s.entered[..k];
      }
    }
  }

  lemma EntersCommits(s: State, t: State, c: CmdId)
    requires CommitsInOrder(s) && Enters(s, t, c)
    ensures CommitsInOrder(t)
  {
  }

  lemma EntersSerial(s: State, t: State, c: CmdId)
    requires Serial(s) && Enters(s, t, c)
    ensures Serial(t)
  {
    EnteredPush(s.entered, Entry(s.note[c].uid, s.note[c].before));
    forall j, k | 0 <= j < k < |t.entered|
      ensures t.entered[j].uid != t.entered[k].uid
    {
      if k == |s.entered| {
        assert s.entered[j].uid in EnteredUids(s.entered);
      }
    }
  }

  lemma PassWrittenIssued(s: State)
    requires IssuedInOrder(s) && CanPassWritten(s)
    ensures IssuedInOrder(PassWritten(s)) && s.note[s.q.wIssue[0]].before <= EnteredUids(s.entered)
  {
    var c, t := s.q.wIssue[0], PassWritten(s);
    EnteredPush(s.entered, Entry(s.note[c].uid, s.note[c].before));
    UidsPop(s.q.wIssue, s.note);
    assert s.q.wIssue[..0] == [] && Uids([], s.note) == {};
    forall k | 0 <= k < |t.q.wIssue|
      ensures t.note[t.q.wIssue[k]].before <= EnteredUids(t.entered) + Uids(t.q.wIssue[..k], t.note)
    {
      UidsPop(s.q.wIssue[..k + 1], s.note);
      assert s.q.wIssue[..k + 1][1..] == t.q.wIssue[..k];
      assert t.q.wIssue[k] == s.q.wIssue[k + 1];
    }
  }

  lemma PassWrittenOrder(s: State)
    requires Ordered(s) && Placed(s.q, s.loc) && CanPassWritten(s)
    ensures Ordered(PassWritten(s))
  {
    hide EnteredInOrder, IssuedInOrder, CommitsInOrder, Serial, Placed;
    var c, t := s.q.wIssue[0], PassWritten(s);
    AtHead(s.q, s.loc, InWIssue);
    PassWrittenIssued(s);
    EntersOrder(s, t, c);
    EntersCommits(s, t, c);
    EntersSerial(s, t, c);
  }

  lemma PassInitIssued(s: State)
    requires IssuedInOrder(s) && CanPassInit(s) && s.loc[s.q.init[0]] == InInit
    ensures IssuedInOrder(PassInit(s))
  {
    var c, t := s.q.init[0], PassInit(s);
    EnteredPush(s.entered, Entry(s.note[c].uid, s.note[c].before));
  }

  lemma PassInitOrder(s: State)
    requires Ordered(s) && Placed(s.q, s.loc) && InitReady(s) && CanPassInit(s)
    ensures Ordered(PassInit(s)) && InitReady(PassInit(s))
  {
    hide EnteredInOrder, IssuedInOrder, CommitsInOrder, Placed;
    var c, t := s.q.init[0], PassInit(s);
    AtHead(s.q, s.loc, InInit);
    PassInitIssued(s);
    if s.cmds[c].typ == Rd {
      EnteredPush(s.entered, Entry(s.note[c].uid, s.note[c].before));
      EntersOrder(s, t, c);
      EntersCommits(s, t, c);
      EntersSerial(s, t, c);
    } else {
      PassInitWriteCommits(s);
    }
  }

  lemma PassInitWriteCommits(s: State)
    requires CommitsInOrder(s) && CanPassInit(s) && s.cmds[s.q.init[0]].typ == Wr
    ensures CommitsInOrder(PassInit(s))
  {
  }

  // ---------------------------------------------------------------- the other steps

  lemma FetchIssued(s: State, h: HostCmd)
    requires IssuedInOrder(s) && Placed(s.q, s.loc) && CanFetch(s)
    ensures IssuedInOrder(Fetch(s, h))
  {
    var c, t := s.q.pool[0], Fetch(s, h);
    AtHead(s.q, s.loc, InPool);
    assert Lists(QueueAt(s.q, InWIssue), s.loc, InWIssue);
    UidsSame(s.q.wIssue, s.note, t.note);
    forall k | 0 <= k < |s.q.wIssue|
      ensures t.note[s.q.wIssue[k]] == s.note[s.q.wIssue[k]] && Uids(s.q.wIssue[..k], t.note) == Uids(s.q.wIssue[..k], s.note)
    {
      assert s.q.wIssue[k] in s.q.wIssue;
      forall x: CmdId | x in s.q.wIssue[..k]
        ensures x in s.q.wIssue
      {
      }
      UidsSame(s.q.wIssue[..k], s.note, t.note);
    }
  }

  lemma FetchSerial(s: State, h: HostCmd)
    requires Serial(s) && Placed(s.q, s.loc) && CanFetch(s)
    ensures Serial(Fetch(s, h))
  {
    AtHead(s.q, s.loc, InPool);
  }

  lemma FetchCommits(s: State, h: HostCmd)
    requires CommitsInOrder(s) && Placed(s.q, s.loc) && CanFetch(s)
    ensures CommitsInOrder(Fetch(s, h))
  {
    AtHead(s.q, s.loc, InPool);
    assert Lists(QueueAt(s.q, InFtlWait), s.loc, InFtlWait);
    forall k | 0 <= k < |s.q.ftlWait|
      ensures s.q.ftlWait[k] != s.q.pool[0]
    {
      assert s.q.ftlWait[k] in s.q.ftlWait;
    }
  }

  lemma FetchOrder(s: State, h: HostCmd)
    requires Ordered(s) && Placed(s.q, s.loc) && CanFetch(s)
    ensures Ordered(Fetch(s, h))
  {
    hide EnteredInOrder, IssuedInOrder, CommitsInOrder, Serial, Placed;
    FetchIssued(s, h);
    FetchSerial(s, h);
    FetchCommits(s, h);
  }

  lemma IssueRxIssued(s: State)
    requires IssuedInOrder(s) && Placed(s.q, s.loc) && CanIssueRx(s)
    ensures IssuedInOrder(IssueRx(s))
  {
    var c, t := s.q.wWait[0], IssueRx(s);
    AtHead(s.q, s.loc, InWWait);
    UidsPush(s.q.wIssue, c, s.note);
    forall k | 0 <= k < |t.q.wIssue|
      ensures t.note[t.q.wIssue[k]].before <= EnteredUids(t.entered) + Uids(t.q.wIssue[..k], t.note)
    {
      if k < |s.q.wIssue| {
        assert t.q.wIssue[..k] == s.q.wIssue[..k];
      } else {
        assert t.q.wIssue[..k] == s.q.wIssue;
      }
    }
  }

  lemma IssueRxOrder(s: State)
    requires Ordered(s) && Placed(s.q, s.loc) && CanIssueRx(s)
    ensures Ordered(IssueRx(s))
    ensures InitReady(s) ==> InitReady(IssueRx(s))
  {
    hide EnteredInOrder, IssuedInOrder, Placed;
    AtHead(s.q, s.loc, InWWait);
    IssueRxIssued(s);
  }

  lemma MapCommits(s: State)
    requires CommitsInOrder(s) && CanMap(s)
    ensures CommitsInOrder(MapCmd(s))
  {
    hide Replay, Given, Remapped, Digits;
  }

  lemma MapIssued(s: State)
    requires IssuedInOrder(s) && CanMap(s)
    ensures IssuedInOrder(MapCmd(s))
  {
    hide Replay, Given, Remapped, Digits;
    var t := MapCmd(s);
    UidsSame(s.q.wIssue, s.note, t.note);
    forall k | 0 <= k < |s.q.wIssue|
      ensures Uids(s.q.wIssue[..k], t.note) == Uids(s.q.wIssue[..k], s.note)
    {
      UidsSame(s.q.wIssue[..k], s.note, t.note);
    }
  }

  lemma MapOrder(s: State)
    requires Ordered(s) && Placed(s.q, s.loc) && CanMap(s)
    ensures Ordered(MapCmd(s))
  {
    hide EnteredInOrder, IssuedInOrder, CommitsInOrder, Placed, Replay, Given, Remapped, Digits;
    AtHead(s.q, s.loc, InFtlWait);
    MapCommits(s);
    MapIssued(s);
  }

  /** Steps that touch neither the commands before ftl_wait_q nor ftl_wait_q itself. */
  ghost predicate Elsewhere(s: State, t: State) {
    && t.entered == s.entered && t.note == s.note && t.hist == s.hist && t.uid == s.uid
    && t.q.wIssue == s.q.wIssue && t.q.ftlWait == s.q.ftlWait
    && (forall c: CmdId :: t.loc[c] != s.loc[c] ==> !Unentered(s.loc[c]) && !Unentered(t.loc[c]))
  }

  lemma ElsewhereOrder(s: State, t: State)
    requires Elsewhere(s, t)
    ensures Ordered(s) ==> Ordered(t)
    ensures InitReady(s) ==> InitReady(t)
  {
  }

  // ---------------------------------------------------------------- the C functions

  lemma {:induction false} DoneqAllOrder(s: State)
    requires Inv(s) && Ordered(s)
    ensures Ordered(DoneqAll(s))
    decreases |s.q.done|
  {
    hide Inv, Ordered;
    if !CanRetireWrite(s) {
    } else {
      RetireWriteElsewhere(s);
      RetireWriteKeeps(s);
      DoneqAllOrder(RetireWrite(s));
    }
  }

  lemma RetireWriteElsewhere(s: State)
    requires Inv(s) && CanRetireWrite(s)
    ensures Ordered(s) ==> Ordered(RetireWrite(s))
  {
    hide Ordered, CmdsOk, HeadOnly, Counted, Owned, Requested, Paired, OnScript, FlashOk, TableOk, BufsOk, DmaOk,
         SentOk, HistOk;
    AtHead(s.q, s.loc, InDone);
    ElsewhereOrder(s, RetireWrite(s));
  }

  lemma RetireReadElsewhere(s: State)
    requires Inv(s) && CanRetireRead(s)
    ensures Ordered(s) ==> Ordered(RetireRead(s))
    ensures InitReady(s) ==> InitReady(RetireRead(s))
  {
    hide Ordered, InitReady, CmdsOk, HeadOnly, Counted, Owned, Requested, Paired, OnScript, FlashOk, TableOk,
         BufsOk, DmaOk, SentOk, HistOk;
    AtHead(s.q, s.loc, InRIssue);
    ElsewhereOrder(s, RetireRead(s));
  }

  lemma {:induction false} PassAllOrder(s: State)
    requires Inv(s) && Ordered(s)
    ensures Ordered(PassAll(s))
    decreases |s.q.wIssue|
  {
    hide Placed, CmdsOk, HeadOnly, Counted, Owned, Requested, Paired, OnScript, FlashOk, TableOk, BufsOk, DmaOk,
         SentOk, HistOk, Ordered;
    if !CanPassWritten(s) {
    } else {
      PassWrittenOrder(s);
      PassWrittenKeeps(s);
      PassAllOrder(PassWritten(s));
    }
  }

  lemma {:induction false} RetireAllOrder(s: State)
    requires Inv(s) && Ordered(s) && InitReady(s)
    ensures Ordered(RetireAll(s)) && InitReady(RetireAll(s))
    decreases |s.q.rIssue|
  {
    hide Inv, Ordered, InitReady;
    if !CanRetireRead(s) {
    } else {
      RetireReadElsewhere(s);
      RetireReadKeeps(s);
      RetireAllOrder(RetireRead(s));
    }
  }

  /** After dmadone either ftl_wait_q is full or every issued write is in it. */
  lemma DmadoneWritesOrder(s: State)
    requires Inv(s) && Ordered(s) && Bounded(s.q)
    ensures Ordered(DmadoneWrites(s)) && InitReady(DmadoneWrites(s))
  {
    hide Inv, PassAll, EnteredInOrder, CommitsInOrder, Serial;
    if s.q.wIssue != [] {
      ElsewhereOrder(s, RxDrain(s));
      RxDrainKeeps(s);
      PassAllOrder(RxDrain(s));
      PassAllQueues(RxDrain(s));
    }
    var t := DmadoneWrites(s);
    if t.q.wIssue == [] {
      assert Uids(t.q.wIssue, t.note) == {};
    }
  }

  lemma DmadoneOrder(s: State)
    requires Inv(s) && Ordered(s) && Bounded(s.q)
    ensures Ordered(Dmadone(s)) && InitReady(Dmadone(s))
  {
    hide Inv, DmadoneWrites, RetireAll, Ordered, InitReady;
    DmadoneWritesOrder(s);
    DmadoneKeeps(s);
    var t := DmadoneWrites(s);
    if t.q.rIssue != [] {
      ElsewhereOrder(t, TxDrain(t));
      TxDrainKeeps(t);
      RetireAllOrder(TxDrain(t));
    }
  }

  lemma {:induction false} IssueRxAllOrder(s: State)
    requires Inv(s) && Ordered(s) && InitReady(s)
    ensures Ordered(IssueRxAll(s)) && InitReady(IssueRxAll(s))
    decreases |s.q.wWait|
  {
    hide Placed, CmdsOk, HeadOnly, Counted, Owned, Requested, Paired, OnScript, FlashOk, TableOk, BufsOk, DmaOk,
         SentOk, HistOk, Ordered, InitReady;
    if !CanIssueRx(s) {
    } else {
      IssueRxOrder(s);
      IssueRxKeeps(s);
      IssueRxAllOrder(IssueRx(s));
    }
  }

  lemma IssueTxElsewhere(s: State)
    requires Placed(s.q, s.loc) && CanIssueTx(s)
    ensures Ordered(s) ==> Ordered(IssueTx(s))
    ensures InitReady(s) ==> InitReady(IssueTx(s))
  {
    hide Ordered, InitReady;
    AtHead(s.q, s.loc, InRWait);
    ElsewhereOrder(s, IssueTx(s));
  }

  lemma {:induction false} IssueTxAllOrder(s: State)
    requires Inv(s) && Ordered(s) && InitReady(s)
    ensures Ordered(IssueTxAll(s)) && InitReady(IssueTxAll(s))
    decreases |s.q.rWait|
  {
    hide Placed, CmdsOk, HeadOnly, Counted, Owned, Requested, Paired, OnScript, FlashOk, TableOk, BufsOk, DmaOk,
         SentOk, HistOk, Ordered, InitReady;
    if !CanIssueTx(s) {
    } else {
      IssueTxElsewhere(s);
      IssueTxKeeps(s);
      IssueTxAllOrder(IssueTx(s));
    }
  }

  lemma {:induction false} InitAllOrder(s: State)
    requires Inv(s) && Ordered(s) && InitReady(s)
    ensures Ordered(InitAll(s))
    decreases |s.q.init|
  {
    hide Placed, CmdsOk, HeadOnly, Counted, Owned, Requested, Paired, OnScript, FlashOk, TableOk, BufsOk, DmaOk,
         SentOk, HistOk, Ordered, InitReady;
    var t := GrabIfNeeded(s);
    GrabIfNeededKeeps(s);
    ElsewhereOrder(s, t);
    if !CanPassInit(t) {
    } else {
      PassInitOrder(t);
      PassInitKeeps(t);
      InitAllOrder(PassInit(t));
    }
  }

  lemma NvmeRunOrder(s: State, arrival: Option<HostCmd>)
    requires Placed(s.q, s.loc) && Ordered(s)
    ensures Ordered(NvmeRun(s, arrival))
  {
    hide Placed, Ordered, Fetch;
    if arrival.Some? && CanFetch(s) {
      FetchOrder(s, arrival.value);
    }
  }

  lemma NvmeRunKeeps(s: State, arrival: Option<HostCmd>)
    requires Inv(s) && ValidArrival(arrival)
    ensures Inv(NvmeRun(s, arrival))
  {
    hide Inv, Fetch;
    if arrival.Some? && CanFetch(s) {
      FetchKeeps(s, arrival.value);
    }
  }

  lemma InvPlaced(s: State)
    requires Inv(s)
    ensures Placed(s.q, s.loc)
  {
  }

  lemma NvmeRunBounded(s: State, arrival: Option<HostCmd>)
    requires Bounded(s.q)
    ensures Bounded(DoneqAll(NvmeRun(s, arrival)).q)
  {
    hide DoneqAll;
    DoneqAllQueues(NvmeRun(s, arrival));
  }

  lemma HilRunOrder(s: State, arrival: Option<HostCmd>)
    requires Inv(s) && Ordered(s) && Bounded(s.q) && ValidArrival(arrival)
    ensures Ordered(HilRun(s, arrival))
  {
    hide Inv, NvmeRun, DoneqAll, Dmadone, IssueRxAll, IssueTxAll, InitAll, Ordered, InitReady, Bounded;
    var s0 := NvmeRun(s, arrival);
    InvPlaced(s);
    NvmeRunOrder(s, arrival);
    NvmeRunKeeps(s, arrival);
    NvmeRunBounded(s, arrival);
    var s1 := DoneqAll(s0);
    DoneqAllOrder(s0);
    DoneqAllKeeps(s0);
    var s2 := Dmadone(s1);
    DmadoneOrder(s1);
    DmadoneKeeps(s1);
    var s3 := IssueRxAll(s2);
    IssueRxAllOrder(s2);
    IssueRxAllKeeps(s2);
    IssueTxAllOrder(s3);
    IssueTxAllKeeps(s3);
    InitAllOrder(IssueTxAll(s3));
  }

  lemma FtlRunOrder(s: State)
    requires Inv(s) && Ordered(s)
    ensures Ordered(FtlRun(s))
  {
    hide Inv, Ordered, MapCmd;
    if CanMap(s) {
      InvPlaced(s);
      MapOrder(s);
    }
  }

  lemma ProcessWaitElsewhere(s: State)
    requires Placed(s.q, s.loc)
    ensures Ordered(s) ==> Ordered(ProcessWait(s))
  {
    hide Ordered, CmdOps;
    if CanFanOut(s) {
      AtHead(s.q, s.loc, InNandWait);
      ElsewhereOrder(s, FanOut(s));
    }
  }

  lemma PollOneElsewhere(s: State, w: WayId, polls: Polls)
    requires Requested(s.fil, s.own, s.loc, s.cmds, s.bufAddr)
    ensures Ordered(s) ==> Ordered(PollOne(s, w, polls))
  {
    hide Ordered, Requested, Disciplined, Medium, Memory;
    if polls[w] && CanFinish(s, w) {
      FilFinish.HeadFacts(s, w);
      ElsewhereOrder(s, Finish(s, w));
    }
  }

  lemma InvRequested(s: State)
    requires Inv(s)
    ensures Requested(s.fil, s.own, s.loc, s.cmds, s.bufAddr)
  {
  }

  lemma {:induction false} PollUpToOrder(s: State, polls: Polls, k: nat)
    requires Inv(s) && Ordered(s) && k <= 64
    ensures Ordered(PollUpTo(s, polls, k))
  {
    hide Inv, Ordered, PollOne;
    if k == 0 {
    } else {
      PollUpToOrder(s, polls, k - 1);
      PollUpToKeeps(s, polls, k - 1);
      InvRequested(PollUpTo(s, polls, k - 1));
      PollOneElsewhere(PollUpTo(s, polls, k - 1), WayAt(k - 1), polls);
    }
  }

  lemma {:induction false} TransfersElsewhere(s: State, bs: seq<BufId>)
    ensures Elsewhere(s, Transfers(s, bs))
    decreases bs
  {
    if bs == [] {
    } else {
      var b := bs[0];
      if b in s.rx {
        TransfersElsewhere(RxArrive(s, b), bs[1..]);
      } else if b in s.tx && s.own[b].Some? {
        TransfersElsewhere(TxLeave(s, b), bs[1..]);
      } else {
        TransfersElsewhere(s, bs[1..]);
      }
    }
  }

  lemma TransfersOrder(s: State, bs: seq<BufId>)
    requires Ordered(s)
    ensures Ordered(Transfers(s, bs))
  {
    hide Ordered, Transfers, Elsewhere;
    TransfersElsewhere(s, bs);
    ElsewhereOrder(s, Transfers(s, bs));
  }

  lemma AfterFtlOrder(s: State, e: Env)
    requires Inv(s) && Ordered(s) && Bounded(s.q) && ValidArrival(e.arrival)
    ensures Ordered(AfterFtl(s, e))
  {
    hide Inv, Ordered, Bounded, HilRun, FtlRun, Transfers;
    var s0 := Transfers(s, e.beforeHil);
    TransfersOrder(s, e.beforeHil);
    TransfersKeep(s, e.beforeHil);
    HilRunOrder(s0, e.arrival);
    HilRunKeeps(s0, e.arrival);
    TransfersOrder(HilRun(s0, e.arrival), e.beforeFtl);
    TransfersKeep(HilRun(s0, e.arrival), e.beforeFtl);
    FtlRunOrder(Transfers(HilRun(s0, e.arrival), e.beforeFtl));
  }

  lemma RoundOrder(s: State, e: Env)
    requires Inv(s) && Ordered(s) && Bounded(s.q) && ValidArrival(e.arrival)
    ensures Ordered(Round(s, e))
  {
    hide Inv, Ordered, Bounded, AfterFtl, ProcessWait, PollUpTo, Transfers;
    AfterFtlOrder(s, e);
    AfterFtlKeeps(s, e);
    var t := Transfers(AfterFtl(s, e), e.beforeFil);
    TransfersOrder(AfterFtl(s, e), e.beforeFil);
    TransfersKeep(AfterFtl(s, e), e.beforeFil);
    InvPlaced(t);
    ProcessWaitElsewhere(t);
    ProcessWaitKeeps(t);
    PollUpToOrder(ProcessWait(t), e.polls, 64);
  }

  lemma {:induction false} EveryRoundOrdered(envs: seq<Env>)
    requires ValidEnvs(envs)
    ensures Ordered(Rounds(envs))
    decreases |envs|
  {
    hide Inv, Ordered, Round, Start;
    if envs == [] {
      StartOrdered();
    } else {
      var n := |envs| - 1;
      EveryRoundOrdered(envs[..n]);
      EveryRound(envs[..n]);
      RoundOrder(Rounds(envs[..n]), envs[n]);
    }
  }

  lemma StartOrdered()
    ensures Ordered(Start())
  {
  }

  /** The disk is linearizable under the cyclic schedule. In every run of rounds the commit history
      is a sequential history of an atomic disk (a read commits to what the writes before it left),
      its commands are all different, and it respects the host's real-time order: whatever may have
      been complete when a command was fetched takes effect before that command. */
  lemma Linearizable(envs: seq<Env>, k: nat)
    requires ValidEnvs(envs) && k < |Rounds(envs).hist|
    ensures var s := Rounds(envs);
            && (forall i :: s.hist[k].Looked? && 0 <= i < |s.hist[k].want| ==>
                  s.hist[k].want[i] == Lookup(Replay(s.hist[..k]), s.hist[k].lba + i))
            && (forall j :: 0 <= j < k ==> s.hist[j].uid != s.hist[k].uid)
            && k < |s.entered| && s.entered[k].uid == s.hist[k].uid
            && (forall u :: u in s.entered[k].before ==> exists j :: 0 <= j < k && s.hist[j].uid == u)
  {
    hide Rounds, Inv, Bounded, Replay, IssuedInOrder;
    var s := Rounds(envs);
    EveryRound(envs);
    EveryRoundOrdered(envs);
    InvHist(s);
    forall u | u in s.entered[k].before
      ensures exists j :: 0 <= j < k && s.hist[j].uid == u
    {
      assert u in EnteredUids(s.entered[..k]);
      var j: nat :| 0 <= j < |s.entered[..k]| && s.entered[..k][j].uid == u;
      assert s.hist[j].uid == u;
    }
    forall j | 0 <= j < k
      ensures s.hist[j].uid != s.hist[k].uid
    {
      assert s.entered[j].uid != s.entered[k].uid;
    }
  }

  /** And what the host receives in such a run is what that atomic disk answers: each block delivered
      for a read is the block the writes before it in the history have left there. */
  lemma DeliversTheAtomicDisk(envs: seq<Env>, x: Sent)
    requires ValidEnvs(envs) && x in Rounds(envs).sent
    ensures var hist := Rounds(envs).hist;
            && x.at < |hist| && hist[x.at].Looked? && x.i < |hist[x.at].want|
            && (Lookup(Replay(hist[..x.at]), hist[x.at].lba + x.i).Some? ==>
                  Lookup(Replay(hist[..x.at]), hist[x.at].lba + x.i) == Some(x.got))
  {
    hide Rounds, Inv, Bounded, Replay;
    EveryRound(envs);
    Theorems.SentIsWanted(Rounds(envs), x);
  }

  lemma InvHist(s: State)
    requires Inv(s)
    ensures HistOk(s.hist)
  {
  }

  /** What a fetched command records: every write whose receive DMA has been started, hence every
      write the host can have seen completed, and everything that has entered ftl_wait_q, hence
      every read the host can have seen completed. */
  lemma FetchRecordsCompleted(s: State, h: HostCmd, x: CmdId)
    requires Inv(s) && CanFetch(s)
    requires s.loc[x] == InWIssue
    ensures s.note[x].uid in Fetch(s, h).note[s.q.pool[0]].before
    ensures EnteredUids(s.entered) <= Fetch(s, h).note[s.q.pool[0]].before
  {
    InvPlaced(s);
    hide Inv;
    assert Lists(QueueAt(s.q, InWIssue), s.loc, InWIssue);
    var k: nat :| k < |s.q.wIssue| && s.q.wIssue[k] == x;
  }
}
