/** Each step of the HIL and of the DMA hardware keeps the invariant. */
module Preservation {
  import opened Base
  import opened NandAddress
  import opened Model
  import opened WayScript
  import RQ = RequestQueues
  import opened Pipeline
  import opened Invariant

  lemma Moved(q: Queues, q': Queues, loc: LocMem, c: CmdId, from: Loc, to: Loc)
    requires Placed(q, loc) && loc[c] == from && from != to
    requires forall l: Loc :: l != from && l != to && l != InFil ==> QueueAt(q', l) == QueueAt(q, l)
    requires from != InFil ==> QueueAt(q, from) != [] && QueueAt(q, from)[0] == c && QueueAt(q', from) == QueueAt(q, from)[1..]
    requires to != InFil ==> QueueAt(q', to) == QueueAt(q, to) + [c]
    ensures Placed(q', loc[c := to])
  {
    forall l: Loc | l != InFil
      ensures Lists(QueueAt(q', l), loc[c := to], l)
    {
      if l == from {
        ListsPop(QueueAt(q, from), loc, from, to);
      } else if l == to {
        ListsPush(QueueAt(q, to), loc, to, c);
      } else {
        ListsKeep(QueueAt(q, l), loc, l, c, to);
      }
    }
  }

  lemma AtHead(q: Queues, loc: LocMem, l: Loc)
    requires Placed(q, loc) && l != InFil && QueueAt(q, l) != []
    ensures loc[QueueAt(q, l)[0]] == l
  {
    assert QueueAt(q, l)[0] in QueueAt(q, l);
  }

  lemma {:induction false} CmdOpsSame(c: CmdId, typ: CmdType, buf: seq<BufId>, a: AddrMem, a': AddrMem)
    requires forall i :: 0 <= i < |buf| ==> a'[buf[i]] == a[buf[i]]
    ensures CmdOps(c, typ, buf, a') == CmdOps(c, typ, buf, a)
    decreases buf
  {
    if buf == [] {
    } else {
      var n := |buf| - 1;
      forall i | 0 <= i < n
        ensures a'[buf[..n][i]] == a[buf[..n][i]]
      {
      }
      CmdOpsSame(c, typ, buf[..n], a, a');
    }
  }

  lemma {:induction false} AllOpsSame(q: seq<CmdId>, cmds: CmdMem, cmds': CmdMem, a: AddrMem, a': AddrMem)
    requires forall c: CmdId :: c in q ==> cmds'[c].typ == cmds[c].typ && cmds'[c].buf == cmds[c].buf
    requires forall c: CmdId, i: nat :: c in q && i < |cmds[c].buf| ==> a'[cmds[c].buf[i]] == a[cmds[c].buf[i]]
    ensures AllOps(q, cmds', a') == AllOps(q, cmds, a)
    decreases q
  {
    if q == [] {
    } else {
      var c := q[0];
      assert c in q;
      CmdOpsSame(c, cmds[c].typ, cmds[c].buf, a, a');
      forall c: CmdId | c in q[1..]
        ensures c in q
      {
      }
      AllOpsSame(q[1..], cmds, cmds', a, a');
    }
  }

  lemma {:induction false} AllOpsAppend(q: seq<CmdId>, c: CmdId, cmds: CmdMem, a: AddrMem)
    ensures AllOps(q + [c], cmds, a) == AllOps(q, cmds, a) + CmdOps(c, cmds[c].typ, cmds[c].buf, a)
    decreases q
  {
    if q == [] {
      assert q + [c] == [c] && [c][1..] == [];
      assert AllOps([], cmds, a) == [];
    } else {
      assert (q + [c])[1..] == q[1..] + [c];
      AllOpsAppend(q[1..], c, cmds, a);
    }
  }

  /** Changing commands outside nand_wait_q leaves the waiting operations alone. */
  lemma AllOpsKept(q: Queues, loc: LocMem, cmds: CmdMem, cmds': CmdMem, a: AddrMem)
    requires Placed(q, loc)
    requires forall c: CmdId :: loc[c] == InNandWait ==> cmds'[c].typ == cmds[c].typ && cmds'[c].buf == cmds[c].buf
    ensures AllOps(q.nandWait, cmds', a) == AllOps(q.nandWait, cmds, a)
  {
    assert Lists(QueueAt(q, InNandWait), loc, InNandWait);
    AllOpsSame(q.nandWait, cmds, cmds', a, a);
  }

  lemma BufNoDup(own: OwnMem, loc: LocMem, cmds: CmdMem, pool: seq<BufId>, c: CmdId)
    requires Owned(own, loc, cmds, pool) && loc[c] != InPool
    ensures NoDup(cmds[c].buf)
  {
    var buf := cmds[c].buf;
    forall i, j | 0 <= i < j < |buf|
      ensures buf[i] != buf[j]
    {
      assert own[buf[i]] == Some(Slot(c, i)) && own[buf[j]] == Some(Slot(c, j));
    }
  }

  // ---------------------------------------------------------------- one command changes

  /** Nothing is different about any command but c. */
  ghost predicate Only(s: State, t: State, c: CmdId) {
    forall x: CmdId :: x != c ==> t.loc[x] == s.loc[x] && t.cmds[x] == s.cmds[x] && t.note[x] == s.note[x]
  }

  lemma CmdsOkStep(s: State, t: State, c: CmdId)
    requires CmdsOk(s.loc, s.cmds, s.note, s.hist) && Only(s, t, c) && t.hist == s.hist
    requires CmdOk(t.loc[c], t.cmds[c], t.note[c], t.hist)
    ensures CmdsOk(t.loc, t.cmds, t.note, t.hist)
  {
  }

  lemma CountedStep(s: State, t: State, c: CmdId)
    requires Counted(s.loc, s.cmds, s.fil.keyAt) && Only(s, t, c) && t.fil == s.fil
    requires t.loc[c] != InFil
    ensures Counted(t.loc, t.cmds, t.fil.keyAt)
  {
  }

  lemma HeadOnlyStep(s: State, t: State, c: CmdId)
    requires HeadOnly(s.q.init, s.cmds) && Only(s, t, c) && t.q.init == s.q.init && t.cmds[c].buf == s.cmds[c].buf
    ensures HeadOnly(t.q.init, t.cmds)
  {
  }

  lemma OwnedStep(s: State, t: State, c: CmdId)
    requires Owned(s.own, s.loc, s.cmds, s.bufPool) && Only(s, t, c) && t.own == s.own && t.bufPool == s.bufPool
    requires t.loc[c] != InPool
    requires t.cmds[c].buf == if s.loc[c] == InPool then [] else s.cmds[c].buf
    ensures Owned(t.own, t.loc, t.cmds, t.bufPool)
  {
    forall x: CmdId, i: nat | t.loc[x] != InPool && i < |t.cmds[x].buf|
      ensures t.own[t.cmds[x].buf[i]] == Some(Slot(x, i))
    {
      if x == c {
        assert s.own[s.cmds[c].buf[i]] == Some(Slot(c, i));
      }
    }
  }

  /** Only command c gains or loses buffers. */
  ghost predicate OnlyOwner(s: State, t: State, c: CmdId) {
    && (forall b: BufId :: s.own[b].Some? && s.own[b].value.cmd != c ==> t.own[b] == s.own[b])
    && (forall b: BufId :: t.own[b].Some? && t.own[b].value.cmd != c ==> t.own[b] == s.own[b])
  }

  ghost predicate OtherAddrsSame(s: State, t: State, c: CmdId) {
    forall b: BufId :: s.own[b].Some? && s.own[b].value.cmd != c ==> t.bufAddr[b] == s.bufAddr[b]
  }

  lemma RequestedStep(s: State, t: State, c: CmdId)
    requires Requested(s.fil, s.own, s.loc, s.cmds, s.bufAddr) && Only(s, t, c) && OnlyOwner(s, t, c)
    requires t.fil == s.fil && OtherAddrsSame(s, t, c)
    requires s.loc[c] != InFil
    ensures Requested(t.fil, t.own, t.loc, t.cmds, t.bufAddr)
  {
    forall w: WayId, k: nat | k < |t.fil.queues[w]|
      ensures ReqOk(w, t.fil.queues[w][k].op, t.own, t.loc, t.cmds, t.bufAddr)
    {
      assert ReqOk(w, s.fil.queues[w][k].op, s.own, s.loc, s.cmds, s.bufAddr);
    }
  }

  /** Nothing that BufOkAt looks at is different for the buffers of other commands. */
  ghost predicate OtherBufsSame(s: State, t: State, c: CmdId) {
    forall b: BufId :: s.own[b].Some? && s.own[b].value.cmd != c ==>
      && t.bufAddr[b] == s.bufAddr[b] && t.mem[b] == s.mem[b]
      && Arriving(t.rx, b) == Arriving(s.rx, b) && t.fil.keyAt[RQ.DataKey(b)] == s.fil.keyAt[RQ.DataKey(b)]
  }

  lemma BufsStep(s: State, t: State, c: CmdId)
    requires BufsOk(s) && Only(s, t, c) && OnlyOwner(s, t, c) && OtherBufsSame(s, t, c)
    requires t.log == s.log && t.hist == s.hist
    requires forall b: BufId :: t.own[b].Some? && t.own[b].value.cmd == c ==> BufOkAt(t, b)
    ensures BufsOk(t)
  {
    forall b: BufId
      ensures BufOkAt(t, b)
    {
      if t.own[b].Some? && t.own[b].value.cmd != c {
        assert BufOkAt(s, b);
      }
    }
  }

  lemma DmaStep(s: State, t: State, c: CmdId)
    requires DmaOk(s.rx, s.tx, s.own, s.loc) && Only(s, t, c) && OnlyOwner(s, t, c)
    requires t.rx == s.rx && t.tx == s.tx
    requires s.loc[c] == InWIssue ==> s.rx == map[]
    requires s.loc[c] == InRIssue ==> s.tx == {}
    ensures DmaOk(t.rx, t.tx, t.own, t.loc)
  {
  }

  // ---------------------------------------------------------------- fetching and buffers

  lemma FetchHeadOnly(s: State, h: HostCmd)
    requires Placed(s.q, s.loc) && HeadOnly(s.q.init, s.cmds) && CanFetch(s)
    ensures var t := Fetch(s, h); HeadOnly(t.q.init, t.cmds)
  {
    AtHead(s.q, s.loc, InPool);
    assert Lists(QueueAt(s.q, InInit), s.loc, InInit);
    assert s.q.pool[0] !in s.q.init;
  }

  lemma FetchBufs(s: State, h: HostCmd)
    requires Owned(s.own, s.loc, s.cmds, s.bufPool) && CanFetch(s) && s.loc[s.q.pool[0]] == InPool && BufsOk(s)
    ensures BufsOk(Fetch(s, h))
  {
    BufsStep(s, Fetch(s, h), s.q.pool[0]);
  }

  lemma FetchKeeps(s: State, h: HostCmd)
    requires Inv(s) && CanFetch(s) && ValidHostCmd(h)
    ensures Inv(Fetch(s, h))
  {
    hide Placed, CmdsOk, HeadOnly, Counted, Owned, Requested, Paired, OnScript, FlashOk, TableOk, BufsOk, DmaOk,
         SentOk, HistOk;
    var t := Fetch(s, h);
    var c := s.q.pool[0];
    AtHead(s.q, s.loc, InPool);
    Moved(s.q, t.q, s.loc, c, InPool, InInit);
    AllOpsKept(s.q, s.loc, s.cmds, t.cmds, s.bufAddr);
    CmdsOkStep(s, t, c);
    FetchHeadOnly(s, h);
    CountedStep(s, t, c);
    OwnedStep(s, t, c);
    RequestedStep(s, t, c);
    FetchBufs(s, h);
    DmaStep(s, t, c);
  }

  lemma GrabHeadOnly(s: State)
    requires Placed(s.q, s.loc) && HeadOnly(s.q.init, s.cmds) && CanGrab(s)
    ensures var t := Grab(s); HeadOnly(t.q.init, t.cmds)
  {
    assert Lists(QueueAt(s.q, InInit), s.loc, InInit);
  }

  lemma GrabPool(s: State)
    requires Lists(s.bufPool, s.own, None) && CanGrab(s)
    ensures Lists(Grab(s).bufPool, Grab(s).own, None)
    ensures NoDup(s.bufPool[..s.cmds[s.q.init[0]].nblock])
    ensures forall b: BufId :: b in s.bufPool[..s.cmds[s.q.init[0]].nblock] ==> s.own[b] == None
  {
    var n := s.cmds[s.q.init[0]].nblock;
    var pool := s.bufPool;
    forall x: nat
      ensures x in pool[n..] <==> x < 8192 && Grab(s).own[x] == None
    {
      if x in pool[n..] {
        var j :| n <= j < |pool| && pool[j] == x;
        assert x !in pool[..n];
      }
      if x in pool && x !in pool[..n] {
        var j :| 0 <= j < |pool| && pool[j] == x;
        assert pool[n..][j - n] == x;
      }
    }
  }

  lemma GrabOwned(s: State)
    requires Owned(s.own, s.loc, s.cmds, s.bufPool) && CanGrab(s) && s.loc[s.q.init[0]] == InInit
    ensures var t := Grab(s); Owned(t.own, t.loc, t.cmds, t.bufPool) && OnlyOwner(s, t, s.q.init[0])
  {
    var t := Grab(s);
    var c := s.q.init[0];
    var buf := t.cmds[c].buf;
    GrabPool(s);
    forall x: CmdId, i: nat | t.loc[x] != InPool && i < |t.cmds[x].buf|
      ensures t.own[t.cmds[x].buf[i]] == Some(Slot(x, i))
    {
      if x == c {
        IndexOfUnique(buf, i);
      } else {
        assert s.own[s.cmds[x].buf[i]] == Some(Slot(x, i));
      }
    }
  }

  lemma GrabBufs(s: State)
    requires BufsOk(s) && CanGrab(s) && s.loc[s.q.init[0]] == InInit
    requires OnlyOwner(s, Grab(s), s.q.init[0])
    requires var c := s.q.init[0]; s.cmds[c].typ == Wr ==> |s.note[c].payload| == s.cmds[c].nblock
    requires forall b: BufId :: s.own[b].Some? ==> s.own[b].value.cmd != s.q.init[0]
    ensures BufsOk(Grab(s))
  {
    BufsStep(s, Grab(s), s.q.init[0]);
  }

  lemma NoBufsYet(s: State, c: CmdId)
    requires Owned(s.own, s.loc, s.cmds, s.bufPool) && s.loc[c] != InPool && s.cmds[c].buf == []
    ensures forall b: BufId :: s.own[b].Some? ==> s.own[b].value.cmd != c
  {
  }

  lemma CmdOkAt(s: State, c: CmdId)
    requires CmdsOk(s.loc, s.cmds, s.note, s.hist)
    ensures CmdOk(s.loc[c], s.cmds[c], s.note[c], s.hist)
  {
  }

  lemma BufsAt(s: State, b: BufId)
    requires BufsOk(s)
    ensures BufOkAt(s, b)
  {
  }

  lemma GrabKeeps(s: State)
    requires Inv(s) && CanGrab(s)
    ensures Inv(Grab(s))
  {
    hide Placed, CmdsOk, HeadOnly, Counted, Owned, Requested, Paired, OnScript, FlashOk, TableOk, BufsOk, DmaOk,
         SentOk, HistOk;
    var t := Grab(s);
    var c := s.q.init[0];
    AtHead(s.q, s.loc, InInit);
    CmdOkAt(s, c);
    NoBufsYet(s, c);
    AllOpsKept(s.q, s.loc, s.cmds, t.cmds, s.bufAddr);
    CmdsOkStep(s, t, c);
    GrabHeadOnly(s);
    CountedStep(s, t, c);
    GrabOwned(s);
    RequestedStep(s, t, c);
    GrabBufs(s);
    DmaStep(s, t, c);
  }

  /** Moving one command on keeps BufsOk if its own buffers are fit for the new place. */
  lemma MoveBufs(s: State, t: State, c: CmdId)
    requires BufsOk(s) && Only(s, t, c) && OtherBufsSame(s, t, c) && t.own == s.own
    requires t.log == s.log && t.hist == s.hist
    requires forall b: BufId :: s.own[b].Some? && s.own[b].value.cmd == c && BufOkAt(s, b) ==> BufOkAt(t, b)
    ensures BufsOk(t)
  {
    forall b: BufId
      ensures BufOkAt(t, b)
    {
      assert BufOkAt(s, b);
    }
  }

  lemma PassInitKeeps(s: State)
    requires Inv(s) && CanPassInit(s)
    ensures Inv(PassInit(s))
  {
    hide Placed, CmdsOk, HeadOnly, Counted, Owned, Requested, Paired, OnScript, FlashOk, TableOk, BufsOk, DmaOk,
         SentOk, HistOk;
    var t := PassInit(s);
    var c := s.q.init[0];
    AtHead(s.q, s.loc, InInit);
    CmdOkAt(s, c);
    Moved(s.q, t.q, s.loc, c, InInit, t.loc[c]);
    CmdsOkStep(s, t, c);
    HeadOnlyPop(s);
    CountedStep(s, t, c);
    OwnedStep(s, t, c);
    RequestedStep(s, t, c);
    MoveBufs(s, t, c);
    DmaStep(s, t, c);
  }

  lemma HeadOnlyPop(s: State)
    requires HeadOnly(s.q.init, s.cmds) && s.q.init != []
    ensures HeadOnly(s.q.init[1..], s.cmds)
  {
  }

  // ---------------------------------------------------------------- host DMA

  lemma OwnSlot(s: State, b: BufId)
    requires Owned(s.own, s.loc, s.cmds, s.bufPool) && s.own[b].Some?
    ensures var o := s.own[b].value; var buf := s.cmds[o.cmd].buf;
            s.loc[o.cmd] != InPool && NoDup(buf) && o.i < |buf| && buf[o.i] == b && b in buf && IndexOf(buf, b) == o.i
  {
    var o := s.own[b].value;
    BufNoDup(s.own, s.loc, s.cmds, s.bufPool, o.cmd);
    IndexOfUnique(s.cmds[o.cmd].buf, o.i);
  }

  /** A buffer in a live command's ring is owned by that command. */
  lemma SlotOwn(s: State, c: CmdId, b: BufId)
    requires Owned(s.own, s.loc, s.cmds, s.bufPool) && s.loc[c] != InPool && b in s.cmds[c].buf
    ensures s.own[b].Some? && s.own[b].value.cmd == c
  {
    var i :| 0 <= i < |s.cmds[c].buf| && s.cmds[c].buf[i] == b;
    assert s.own[s.cmds[c].buf[i]] == Some(Slot(c, i));
  }

  lemma IssueRxBufs(s: State)
    requires BufsOk(s) && Owned(s.own, s.loc, s.cmds, s.bufPool) && CanIssueRx(s)
    requires s.loc[s.q.wWait[0]] == InWWait && s.cmds[s.q.wWait[0]].typ == Wr
    ensures BufsOk(IssueRx(s))
  {
    var t, c := IssueRx(s), s.q.wWait[0];
    forall b: BufId | s.own[b].Some?
      ensures s.own[b].value.cmd != c ==> Arriving(t.rx, b) == Arriving(s.rx, b)
      ensures s.own[b].value.cmd == c && BufOkAt(s, b) ==> BufOkAt(t, b)
    {
      OwnSlot(s, b);
      if b in s.cmds[c].buf {
        SlotOwn(s, c, b);
      }
    }
    MoveBufs(s, t, c);
  }

  lemma IssueRxDma(s: State)
    requires DmaOk(s.rx, s.tx, s.own, s.loc) && Owned(s.own, s.loc, s.cmds, s.bufPool) && CanIssueRx(s)
    requires s.loc[s.q.wWait[0]] == InWWait
    ensures var t := IssueRx(s); DmaOk(t.rx, t.tx, t.own, t.loc)
  {
    var t, c := IssueRx(s), s.q.wWait[0];
    forall b: BufId | b in t.rx
      ensures t.own[b].Some? && t.loc[t.own[b].value.cmd] == InWIssue
    {
      if b in s.cmds[c].buf {
        SlotOwn(s, c, b);
      }
    }
  }

  lemma IssueRxKeeps(s: State)
    requires Inv(s) && CanIssueRx(s)
    ensures Inv(IssueRx(s))
  {
    hide Placed, CmdsOk, HeadOnly, Counted, Owned, Requested, Paired, OnScript, FlashOk, TableOk, BufsOk, DmaOk,
         SentOk, HistOk;
    var t := IssueRx(s);
    var c := s.q.wWait[0];
    AtHead(s.q, s.loc, InWWait);
    CmdOkAt(s, c);
    Moved(s.q, t.q, s.loc, c, InWWait, InWIssue);
    CmdsOkStep(s, t, c);
    CountedStep(s, t, c);
    OwnedStep(s, t, c);
    RequestedStep(s, t, c);
    IssueRxBufs(s);
    IssueRxDma(s);
  }

  lemma IssueTxDma(s: State)
    requires DmaOk(s.rx, s.tx, s.own, s.loc) && Owned(s.own, s.loc, s.cmds, s.bufPool) && CanIssueTx(s)
    requires s.loc[s.q.rWait[0]] == InRWait
    ensures var t := IssueTx(s); DmaOk(t.rx, t.tx, t.own, t.loc)
  {
    var t, c := IssueTx(s), s.q.rWait[0];
    forall b: BufId | b in t.tx
      ensures t.own[b].Some? && t.loc[t.own[b].value.cmd] == InRIssue
    {
      if b in s.cmds[c].buf {
        SlotOwn(s, c, b);
      }
    }
  }

  lemma IssueTxKeeps(s: State)
    requires Inv(s) && CanIssueTx(s)
    ensures Inv(IssueTx(s))
  {
    hide Placed, CmdsOk, HeadOnly, Counted, Owned, Requested, Paired, OnScript, FlashOk, TableOk, BufsOk, DmaOk,
         SentOk, HistOk;
    var t := IssueTx(s);
    var c := s.q.rWait[0];
    AtHead(s.q, s.loc, InRWait);
    CmdOkAt(s, c);
    Moved(s.q, t.q, s.loc, c, InRWait, InRIssue);
    CmdsOkStep(s, t, c);
    CountedStep(s, t, c);
    OwnedStep(s, t, c);
    RequestedStep(s, t, c);
    MoveBufs(s, t, c);
    IssueTxDma(s);
  }

  lemma PassWrittenKeeps(s: State)
    requires Inv(s) && CanPassWritten(s)
    ensures Inv(PassWritten(s))
  {
    hide Placed, CmdsOk, HeadOnly, Counted, Owned, Requested, Paired, OnScript, FlashOk, TableOk, BufsOk, DmaOk,
         SentOk, HistOk;
    var t := PassWritten(s);
    var c := s.q.wIssue[0];
    AtHead(s.q, s.loc, InWIssue);
    CmdOkAt(s, c);
    Moved(s.q, t.q, s.loc, c, InWIssue, InFtlWait);
    CmdsOkStep(s, t, c);
    CountedStep(s, t, c);
    OwnedStep(s, t, c);
    RequestedStep(s, t, c);
    MoveBufs(s, t, c);
    DmaStep(s, t, c);
  }

  lemma RxArriveKeeps(s: State, b: BufId)
    requires Inv(s) && b in s.rx
    ensures Inv(RxArrive(s, b))
  {
    hide Placed, CmdsOk, HeadOnly, Counted, Owned, Requested, Paired, OnScript, FlashOk, TableOk, BufsOk, DmaOk,
         SentOk, HistOk;
    RxOwner(s, b);
    RxArriveBufs(s, b);
    RxArriveDma(s, b);
  }

  lemma RxOwner(s: State, b: BufId)
    requires DmaOk(s.rx, s.tx, s.own, s.loc) && b in s.rx
    ensures s.own[b].Some? && s.loc[s.own[b].value.cmd] == InWIssue
  {
  }

  lemma RxArriveBufs(s: State, b: BufId)
    requires BufsOk(s) && b in s.rx && s.own[b].Some? && s.loc[s.own[b].value.cmd] == InWIssue
    requires CmdsOk(s.loc, s.cmds, s.note, s.hist)
    ensures BufsOk(RxArrive(s, b))
  {
    var t := RxArrive(s, b);
    CmdOkAt(s, s.own[b].value.cmd);
    forall x: BufId
      ensures BufOkAt(t, x)
    {
      assert BufOkAt(s, x);
    }
  }

  lemma RxArriveDma(s: State, b: BufId)
    requires DmaOk(s.rx, s.tx, s.own, s.loc) && b in s.rx
    ensures var t := RxArrive(s, b); DmaOk(t.rx, t.tx, t.own, t.loc)
  {
  }

  /** What leaves for the host is what the read was to return. */
  lemma TxLeaveSent(s: State, b: BufId)
    requires DmaOk(s.rx, s.tx, s.own, s.loc) && b in s.tx && s.own[b].Some?
    requires BufsOk(s) && CmdsOk(s.loc, s.cmds, s.note, s.hist) && SentOk(s.sent, s.hist)
    ensures SentOk(TxLeave(s, b).sent, s.hist)
  {
    assert BufOkAt(s, b);
    var o := s.own[b].value;
    assert CmdOk(s.loc[o.cmd], s.cmds[o.cmd], s.note[o.cmd], s.hist);
  }

  lemma TxLeaveKeeps(s: State, b: BufId)
    requires Inv(s) && b in s.tx && s.own[b].Some?
    ensures Inv(TxLeave(s, b))
  {
    hide Placed, CmdsOk, HeadOnly, Counted, Owned, Requested, Paired, OnScript, FlashOk, TableOk, BufsOk, DmaOk,
         SentOk, HistOk;
    TxLeaveSent(s, b);
    TxLeaveDma(s, b);
    TxLeaveBufs(s, b);
  }

  lemma TxLeaveDma(s: State, b: BufId)
    requires DmaOk(s.rx, s.tx, s.own, s.loc) && b in s.tx && s.own[b].Some?
    ensures var t := TxLeave(s, b); DmaOk(t.rx, t.tx, t.own, t.loc)
  {
  }

  lemma TxLeaveBufs(s: State, b: BufId)
    requires BufsOk(s) && b in s.tx && s.own[b].Some?
    ensures BufsOk(TxLeave(s, b))
  {
    forall x: BufId
      ensures BufOkAt(TxLeave(s, b), x)
    {
      assert BufOkAt(s, x);
    }
  }

  // ---------------------------------------------------------------- retiring

  /** A command from an issue queue or from done_q goes back to the pool with its buffers. */
  ghost predicate Retired(s: State, t: State, c: CmdId) {
    && t == s.(q := t.q, loc := s.loc[c := InPool], bufPool := s.cmds[c].buf + s.bufPool, own := Release(s.own, s.cmds[c].buf))
    && (s.loc[c] == InDone || (s.loc[c] == InRIssue && s.tx == {}))
  }

  lemma RetiredPool(s: State, t: State, c: CmdId)
    requires Owned(s.own, s.loc, s.cmds, s.bufPool) && Retired(s, t, c)
    ensures Lists(t.bufPool, t.own, None)
  {
    var buf := s.cmds[c].buf;
    BufNoDup(s.own, s.loc, s.cmds, s.bufPool, c);
    forall b: BufId | b in buf
      ensures s.own[b].Some?
    {
      SlotOwn(s, c, b);
    }
    forall x: nat
      ensures x in buf + s.bufPool <==> x < 8192 && t.own[x] == None
    {
      assert x in buf + s.bufPool <==> x in buf || x in s.bufPool;
    }
  }

  lemma RetiredOwned(s: State, t: State, c: CmdId)
    requires Owned(s.own, s.loc, s.cmds, s.bufPool) && Retired(s, t, c)
    ensures Owned(t.own, t.loc, t.cmds, t.bufPool) && OnlyOwner(s, t, c)
    ensures forall b: BufId :: t.own[b].Some? ==> t.own[b].value.cmd != c
  {
    RetiredPool(s, t, c);
    forall b: BufId | s.own[b].Some?
      ensures s.own[b].value.cmd == c <==> b in s.cmds[c].buf
    {
      if b in s.cmds[c].buf {
        SlotOwn(s, c, b);
      }
    }
    forall x: CmdId, i: nat | t.loc[x] != InPool && i < |t.cmds[x].buf|
      ensures t.own[t.cmds[x].buf[i]] == Some(Slot(x, i))
    {
      assert s.own[s.cmds[x].buf[i]] == Some(Slot(x, i));
    }
  }

  lemma RetiredBufs(s: State, t: State, c: CmdId)
    requires BufsOk(s) && Retired(s, t, c) && OnlyOwner(s, t, c)
    requires forall b: BufId :: t.own[b].Some? ==> t.own[b].value.cmd != c
    ensures BufsOk(t)
  {
    BufsStep(s, t, c);
  }

  lemma RetiredKeeps(s: State, t: State, c: CmdId)
    requires Inv(s) && Retired(s, t, c) && Placed(t.q, t.loc) && t.q.nandWait == s.q.nandWait && t.q.init == s.q.init
    ensures Inv(t)
  {
    hide Placed, CmdsOk, HeadOnly, Counted, Owned, Requested, Paired, OnScript, FlashOk, TableOk, BufsOk, DmaOk,
         SentOk, HistOk;
    CmdsOkStep(s, t, c);
    CountedStep(s, t, c);
    RetiredOwned(s, t, c);
    RequestedStep(s, t, c);
    RetiredBufs(s, t, c);
    DmaStep(s, t, c);
  }

  lemma RetireReadKeeps(s: State)
    requires Inv(s) && CanRetireRead(s)
    ensures Inv(RetireRead(s))
  {
    hide Placed, CmdsOk, HeadOnly, Counted, Owned, Requested, Paired, OnScript, FlashOk, TableOk, BufsOk, DmaOk,
         SentOk, HistOk;
    var t, c := RetireRead(s), s.q.rIssue[0];
    AtHead(s.q, s.loc, InRIssue);
    Moved(s.q, t.q, s.loc, c, InRIssue, InPool);
    RetiredKeeps(s, t, c);
  }

  lemma RetireWriteKeeps(s: State)
    requires Inv(s) && CanRetireWrite(s)
    ensures Inv(RetireWrite(s))
  {
    hide Placed, CmdsOk, HeadOnly, Counted, Owned, Requested, Paired, OnScript, FlashOk, TableOk, BufsOk, DmaOk,
         SentOk, HistOk;
    var t, c := RetireWrite(s), s.q.done[0];
    AtHead(s.q, s.loc, InDone);
    Moved(s.q, t.q, s.loc, c, InDone, InPool);
    RetiredKeeps(s, t, c);
  }
}
