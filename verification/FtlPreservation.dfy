/** The step of the FTL keeps the invariant: reads are given addresses that will hold the right
    data once their turn comes, writes continue the log. */
module FtlPreservation {
  import opened Base
  import opened NandAddress
  import opened Model
  import opened WayScript
  import RQ = RequestQueues
  import opened Pipeline
  import opened Invariant
  import opened Preservation

  lemma ReplayMore(hist: seq<Commit>, e: Commit)
    ensures Replay(hist + [e]) == Apply(Replay(hist), e)
  {
    assert (hist + [e])[..|hist|] == hist;
  }

  lemma {:induction false} StoreAllLookup(d: map<nat, Block>, lba: nat, blocks: seq<Block>, x: nat)
    ensures Lookup(StoreAll(d, lba, blocks), x) ==
            if lba <= x < lba + |blocks| then Some(blocks[x - lba]) else Lookup(d, x)
    decreases blocks
  {
    if blocks == [] {
    } else {
      StoreAllLookup(d, lba, blocks[..|blocks| - 1], x);
    }
  }

  // ---------------------------------------------------------------- growing histories

  lemma EntryOkGrows(a: NandAddr, d: Option<Block>, log: seq<Block>, more: seq<Block>)
    requires EntryOk(a, d, log)
    ensures EntryOk(a, d, log + more)
  {
  }

  lemma BufOkGrows(i: nat, l: Loc, cmd: Cmd, note: Note, a: NandAddr, m: Block, arriving: Option<Block>,
                   pending: bool, log: seq<Block>, hist: seq<Commit>, more: seq<Block>, e: Commit)
    requires BufOk(i, l, cmd, note, a, m, arriving, pending, log, hist)
    ensures BufOk(i, l, cmd, note, a, m, arriving, pending, log + more, hist + [e])
  {
    if cmd.typ == Rd && PastFtl(l) {
      var want := hist[note.at].want[i];
      assert (hist + [e])[note.at] == hist[note.at];
      if EntryOk(a, want, log) {
        EntryOkGrows(a, want, log, more);
      }
    }
  }

  lemma CmdsOkGrows(s: State, t: State, c: CmdId, e: Commit)
    requires CmdsOk(s.loc, s.cmds, s.note, s.hist) && Only(s, t, c) && t.hist == s.hist + [e]
    requires CmdOk(t.loc[c], t.cmds[c], t.note[c], t.hist)
    ensures CmdsOk(t.loc, t.cmds, t.note, t.hist)
  {
    forall x: CmdId
      ensures CmdOk(t.loc[x], t.cmds[x], t.note[x], t.hist)
    {
      assert CmdOk(s.loc[x], s.cmds[x], s.note[x], s.hist);
    }
  }

  lemma SentOkGrows(sent: set<Sent>, hist: seq<Commit>, e: Commit)
    requires SentOk(sent, hist)
    ensures SentOk(sent, hist + [e])
  {
    forall x | x in sent
      ensures x.at < |hist + [e]| && (hist + [e])[x.at] == hist[x.at]
    {
    }
  }

  lemma HistOkGrows(hist: seq<Commit>, e: Commit)
    requires HistOk(hist)
    requires e.Looked? ==> forall i: nat :: i < |e.want| ==> e.want[i] == Lookup(Replay(hist), e.lba + i)
    ensures HistOk(hist + [e])
  {
    var h := hist + [e];
    assert h[..|hist|] == hist;
    forall k: nat, i: nat | k < |h| && h[k].Looked? && i < |h[k].want|
      ensures h[k].want[i] == Lookup(Replay(h[..k]), h[k].lba + i)
    {
      if k < |hist| {
        assert h[..k] == hist[..k];
        assert h[k] == hist[k];
      }
    }
  }

  lemma BufsGrow(s: State, t: State, c: CmdId, more: seq<Block>, e: Commit)
    requires BufsOk(s) && Only(s, t, c) && t.own == s.own && OtherAddrsSame(s, t, c)
    requires t.mem == s.mem && t.rx == s.rx && t.fil == s.fil
    requires t.log == s.log + more && t.hist == s.hist + [e]
    requires forall b: BufId :: t.own[b].Some? && t.own[b].value.cmd == c ==> BufOkAt(t, b)
    ensures BufsOk(t)
  {
    forall b: BufId
      ensures BufOkAt(t, b)
    {
      if t.own[b].Some? && t.own[b].value.cmd != c {
        assert BufOkAt(s, b);
        var o := s.own[b].value;
        BufOkGrows(o.i, s.loc[o.cmd], s.cmds[o.cmd], s.note[o.cmd], s.bufAddr[b], s.mem[b], Arriving(s.rx, b),
                   s.fil.keyAt[RQ.DataKey(b)].Some?, s.log, s.hist, more, e);
      }
    }
  }

  // ---------------------------------------------------------------- the scripts

  /** Reads of pages that have been handed out fit once everything before them is done. */
  lemma {:induction false} ReadsFitEnd(c: CmdId, buf: seq<BufId>, a: AddrMem, log: seq<Block>, w: WayId)
    requires forall i :: 0 <= i < |buf| ==> a[buf[i]].valid ==> Handed(a[buf[i]], log)
    ensures var t := EndPos(WritesOn(w, |log|));
            Exec(t, RQ.Pick(CmdOps(c, Rd, buf, a), w)) == Some(t)
    decreases buf
  {
    var t := EndPos(WritesOn(w, |log|));
    if buf == [] {
    } else {
      var n := |buf| - 1;
      forall i | 0 <= i < n
        ensures buf[..n][i] == buf[i]
      {
      }
      ReadsFitEnd(c, buf[..n], a, log, w);
      var ad := a[buf[n]];
      var last := BlockOps(c, Rd, buf[n], ad);
      RQ.PickAppend(CmdOps(c, Rd, buf[..n], a), last, w);
      ExecAppend(t, RQ.Pick(CmdOps(c, Rd, buf[..n], a), w), RQ.Pick(last, w));
      if ad.valid && WayOf(ad) == w {
        ReadFitsEnd(ad, |log|, Op(ReadOp, ad, c, buf[n]));
        ExecOne(t, last[0]);
        assert RQ.Pick(last, w) == last by { PickOne(last[0], w); }
      } else {
        assert RQ.Pick(last, w) == [] by { if ad.valid { PickOne(last[0], w); } }
      }
    }
  }

  lemma PickOne(op: Op, w: WayId)
    ensures RQ.Pick([op], w) == if WayOf(op.addr) == w then [op] else []
  {
    assert [op][..0] == [];
    assert RQ.Pick([], w) == [];
  }

  lemma ReadFitsEnd(a: NandAddr, n: nat, op: Op)
    requires 0 <= LogIndex(a) < n && LogIndex(a) < WRITE_LIMIT && a == AddrOf(LogIndex(a))
    requires op.kind == ReadOp && op.addr == a
    ensures var t := EndPos(WritesOn(WayOf(a), n)); Advance(t, op) == Some(t)
  {
    var m: nat := LogIndex(a);
    AddrOfFacts(m);
    WriteCounted(m, n);
    ReadableAtEnd(m / 64, WritesOn(WayOf(a), n));
  }

  /** Where the n-th block write stands in the script of its way. */
  lemma WriteSpot(n: nat)
    requires n < WRITE_LIMIT
    ensures var a, t := AddrOf(n), EndPos(n / 64);
            if a.page == 0 then
              ScriptAt(t) == Erasing(a.block) && ScriptAt(t + 1) == Programming(a.block, a.page) && EndPos(n / 64 + 1) == t + 2
            else
              ScriptAt(t) == Programming(a.block, a.page) && EndPos(n / 64 + 1) == t + 1
  {
    var k := n / 64;
    AddrOfFacts(n);
    WriteContinues(k);
    assert k / 128 == n / 8192;
    hide AddrOf, EndPos, ScriptAt, ProgPos, Digits;
  }

  /** The operations of the n-th block write, run at the end of what its way was given before. */
  lemma WriteFitsOwnWay(c: CmdId, b: BufId, n: nat)
    requires n < WRITE_LIMIT
    ensures Exec(EndPos(n / 64), BlockOps(c, Wr, b, AddrOf(n))) == Some(EndPos(n / 64 + 1))
  {
    hide AddrOf, EndPos, ScriptAt, Exec;
    WriteSpot(n);
    var a, t := AddrOf(n), EndPos(n / 64);
    var er, prog := Op(EraseOp, a, c, b), Op(ProgramOp, a, c, b);
    if a.page == 0 {
      ExecOne(t, er);
      ExecOne(t + 1, prog);
      ExecAppend(t, [er], [prog]);
    } else {
      ExecOne(t, prog);
      assert [] + [prog] == [prog];
    }
  }

  lemma {:induction false} PickAll(ops: seq<Op>, w: WayId)
    requires forall i :: 0 <= i < |ops| ==> ops[i].addr == ops[0].addr
    ensures RQ.Pick(ops, w) == if ops != [] && WayOf(ops[0].addr) == w then ops else []
    decreases ops
  {
    if ops == [] {
    } else {
      PickAll(ops[..|ops| - 1], w);
    }
  }

  /** The operations of the n-th block write take its way from the end of n writes to the end of
      n + 1, and concern no other way. */
  lemma WriteFitsEnd(c: CmdId, b: BufId, n: nat, w: WayId)
    requires n < WRITE_LIMIT
    ensures Exec(EndPos(WritesOn(w, n)), RQ.Pick(BlockOps(c, Wr, b, AddrOf(n)), w)) == Some(EndPos(WritesOn(w, n + 1)))
  {
    AddrOfFacts(n);
    WritesOnNext(w, n);
    WriteFitsOwnWay(c, b, n);
    hide AddrOf, EndPos, WritesOn;
    PickAll(BlockOps(c, Wr, b, AddrOf(n)), w);
  }

  lemma {:induction false} WritesFitEnd(c: CmdId, buf: seq<BufId>, a: AddrMem, n: nat, w: WayId)
    requires n + |buf| <= WRITE_LIMIT
    requires forall i :: 0 <= i < |buf| ==> a[buf[i]] == AddrOf(n + i)
    ensures Exec(EndPos(WritesOn(w, n)), RQ.Pick(CmdOps(c, Wr, buf, a), w)) == Some(EndPos(WritesOn(w, n + |buf|)))
    decreases buf
  {
    hide EndPos, WritesOn, AddrOf, BlockOps, Exec;
    if buf == [] {
      ExecNone(EndPos(WritesOn(w, n)));
    } else {
      var k := |buf| - 1;
      forall i | 0 <= i < k
        ensures buf[..k][i] == buf[i]
      {
      }
      WritesFitEnd(c, buf[..k], a, n, w);
      WriteFitsEnd(c, buf[k], n + k, w);
      var front, last := CmdOps(c, Wr, buf[..k], a), BlockOps(c, Wr, buf[k], a[buf[k]]);
      assert CmdOps(c, Wr, buf, a) == front + last;
      RQ.PickAppend(front, last, w);
      ExecAppend(EndPos(WritesOn(w, n)), RQ.Pick(front, w), RQ.Pick(last, w));
    }
  }

  lemma ExecNone(t: nat)
    ensures Exec(t, []) == Some(t)
  {
  }

  /** Appending a command to nand_wait_q appends its operations to what every way has to do. */
  lemma OnScriptAppend(fil: RQ.Fil, ops: seq<Op>, more: seq<Op>, pos: ScriptPos, n: nat, n': nat)
    requires OnScript(fil, ops, pos, n)
    requires forall w: WayId :: Exec(EndPos(WritesOn(w, n)), RQ.Pick(more, w)) == Some(EndPos(WritesOn(w, n')))
    ensures OnScript(fil, ops + more, pos, n')
  {
    hide EndPos, WritesOn, Exec, RQ.Pick;
    forall w: WayId
      ensures Exec(pos[w], Todo(fil, ops + more, w)) == Some(EndPos(WritesOn(w, n')))
    {
      RQ.PickAppend(ops, more, w);
      assert Todo(fil, ops + more, w) == Todo(fil, ops, w) + RQ.Pick(more, w);
      ExecAppend(pos[w], Todo(fil, ops, w), RQ.Pick(more, w));
    }
  }

  /** New addresses for c leave the operations of the commands already waiting as they were. */
  lemma WaitingSame(s: State, t: State, c: CmdId)
    requires Placed(s.q, s.loc) && Owned(s.own, s.loc, s.cmds, s.bufPool)
    requires s.loc[c] == InFtlWait && OtherAddrsSame(s, t, c)
    ensures AllOps(s.q.nandWait, s.cmds, t.bufAddr) == AllOps(s.q.nandWait, s.cmds, s.bufAddr)
  {
    assert Lists(QueueAt(s.q, InNandWait), s.loc, InNandWait);
    forall x: CmdId, i: nat | x in s.q.nandWait && i < |s.cmds[x].buf|
      ensures t.bufAddr[s.cmds[x].buf[i]] == s.bufAddr[s.cmds[x].buf[i]]
    {
      assert s.own[s.cmds[x].buf[i]] == Some(Slot(x, i));
    }
    AllOpsSame(s.q.nandWait, s.cmds, s.cmds, s.bufAddr, t.bufAddr);
  }

  // ---------------------------------------------------------------- reads

  ghost predicate Mapping(s: State, typ: CmdType) {
    && CanMap(s) && s.cmds[s.q.ftlWait[0]].typ == typ
    && s.loc[s.q.ftlWait[0]] == InFtlWait
    && CmdOk(InFtlWait, s.cmds[s.q.ftlWait[0]], s.note[s.q.ftlWait[0]], s.hist)
  }

  lemma GivenOwner(s: State, c: CmdId, addrs: seq<NandAddr>)
    requires Owned(s.own, s.loc, s.cmds, s.bufPool) && s.loc[c] != InPool && |addrs| == |s.cmds[c].buf|
    ensures var a := Given(s.bufAddr, s.cmds[c].buf, addrs);
            && (forall b: BufId :: s.own[b].Some? && s.own[b].value.cmd != c ==> a[b] == s.bufAddr[b])
            && (forall b: BufId :: s.own[b].Some? && s.own[b].value.cmd == c ==>
                  s.own[b].value.i < |addrs| && a[b] == addrs[s.own[b].value.i])
            && (forall i :: 0 <= i < |addrs| ==> a[s.cmds[c].buf[i]] == addrs[i])
  {
    hide Owned;
    var buf := s.cmds[c].buf;
    BufNoDup(s.own, s.loc, s.cmds, s.bufPool, c);
    forall b: BufId | s.own[b].Some?
      ensures s.own[b].value.cmd != c ==> b !in buf
      ensures s.own[b].value.cmd == c ==> s.own[b].value.i < |buf| && b in buf && IndexOf(buf, b) == s.own[b].value.i
    {
      OwnSlot(s, b);
      if b in buf {
        SlotOwn(s, c, b);
      }
    }
    forall i | 0 <= i < |addrs|
      ensures IndexOf(buf, buf[i]) == i
    {
      IndexOfUnique(buf, i);
    }
  }

  /** The buffers of the mapped command, with their new addresses. */
  lemma NewAddrsFacts(s: State, typ: CmdType)
    requires Mapping(s, typ) && Owned(s.own, s.loc, s.cmds, s.bufPool)
    ensures var c, t := s.q.ftlWait[0], MapCmd(s); var cmd := s.cmds[c];
            && OtherAddrsSame(s, t, c)
            && (forall b: BufId :: s.own[b].Some? && s.own[b].value.cmd == c ==>
                  s.own[b].value.i < |cmd.buf| && t.bufAddr[b] == NewAddr(s, s.own[b].value.i))
            && (forall i :: 0 <= i < |cmd.buf| ==> t.bufAddr[cmd.buf[i]] == NewAddr(s, i))
  {
    hide Owned, NewAddr, Given, Remapped, Digits, Replay, CmdOk;
    var c := s.q.ftlWait[0];
    GivenOwner(s, c, NewAddrs(s));
    assert MapCmd(s).bufAddr == Given(s.bufAddr, s.cmds[c].buf, NewAddrs(s));
  }

  lemma TableAt(s: State, x: nat)
    requires TableOk(s.l2p, s.log, s.hist) && x < 16777216
    ensures EntryOk(s.l2p[x], Lookup(Replay(s.hist), x), s.log)
  {
  }

  lemma MapReadScript(s: State)
    requires Mapping(s, Rd) && Owned(s.own, s.loc, s.cmds, s.bufPool) && Placed(s.q, s.loc)
    requires OnScript(s.fil, AllOps(s.q.nandWait, s.cmds, s.bufAddr), s.pos, |s.log|)
    requires TableOk(s.l2p, s.log, s.hist)
    ensures var t := MapCmd(s); OnScript(t.fil, AllOps(t.q.nandWait, t.cmds, t.bufAddr), t.pos, |t.log|)
  {
    hide OnScript, Owned, TableOk, Placed, AddrOf, EndPos, WritesOn, Replay, CmdOps, Exec, AllOps, Given, Remapped,
         Digits;
    var c, t := s.q.ftlWait[0], MapCmd(s);
    var cmd := s.cmds[c];
    NewAddrsFacts(s, Rd);
    WaitingSame(s, t, c);
    AllOpsAppend(s.q.nandWait, c, s.cmds, t.bufAddr);
    forall i | 0 <= i < |cmd.buf|
      ensures t.bufAddr[cmd.buf[i]].valid ==> Handed(t.bufAddr[cmd.buf[i]], s.log)
    {
      TableAt(s, cmd.lba + i);
    }
    forall w: WayId
      ensures Exec(EndPos(WritesOn(w, |s.log|)), RQ.Pick(CmdOps(c, Rd, cmd.buf, t.bufAddr), w)) == Some(EndPos(WritesOn(w, |s.log|)))
    {
      ReadsFitEnd(c, cmd.buf, t.bufAddr, s.log, w);
    }
    OnScriptAppend(s.fil, AllOps(s.q.nandWait, s.cmds, s.bufAddr), CmdOps(c, Rd, cmd.buf, t.bufAddr), s.pos, |s.log|, |s.log|);
  }

  lemma MapReadBufs(s: State)
    requires Mapping(s, Rd) && Owned(s.own, s.loc, s.cmds, s.bufPool) && BufsOk(s) && TableOk(s.l2p, s.log, s.hist)
    ensures BufsOk(MapCmd(s))
  {
    hide Owned, TableOk, BufsOk, Replay, AddrOf, Given;
    var c, t := s.q.ftlWait[0], MapCmd(s);
    var cmd := s.cmds[c];
    NewAddrsFacts(s, Rd);
    var e := t.hist[|s.hist|];
    forall b: BufId | t.own[b].Some? && t.own[b].value.cmd == c
      ensures BufOkAt(t, b)
    {
      TableAt(s, cmd.lba + s.own[b].value.i);
      assert e.want[s.own[b].value.i] == Lookup(Replay(s.hist), cmd.lba + s.own[b].value.i);
    }
    assert t.log == s.log + [];
    BufsGrow(s, t, c, [], e);
  }

  lemma MapReadKeeps(s: State)
    requires Inv(s) && CanMap(s) && s.cmds[s.q.ftlWait[0]].typ == Rd
    ensures Inv(MapCmd(s))
  {
    hide Placed, CmdsOk, HeadOnly, Counted, Owned, Requested, Paired, OnScript, FlashOk, TableOk, BufsOk, DmaOk,
         SentOk, HistOk, Given, Remapped, Replay, AllOps;
    var c, t := s.q.ftlWait[0], MapCmd(s);
    var e := t.hist[|s.hist|];
    AtHead(s.q, s.loc, InFtlWait);
    CmdOkAt(s, c);
    Moved(s.q, t.q, s.loc, c, InFtlWait, InNandWait);
    CmdsOkGrows(s, t, c, e);
    CountedStep(s, t, c);
    OwnedStep(s, t, c);
    NewAddrsFacts(s, Rd);
    RequestedStep(s, t, c);
    MapReadScript(s);
    ReplayMore(s.hist, e);
    TableSame(s, t);
    MapReadBufs(s);
    DmaStep(s, t, c);
    SentOkGrows(s.sent, s.hist, e);
    HistOkGrows(s.hist, e);
  }

  lemma TableSame(s: State, t: State)
    requires TableOk(s.l2p, s.log, s.hist) && t.l2p == s.l2p && t.log == s.log && Replay(t.hist) == Replay(s.hist)
    ensures TableOk(t.l2p, t.log, t.hist)
  {
  }

  // ---------------------------------------------------------------- writes

  lemma MapWriteScript(s: State)
    requires Mapping(s, Wr) && Owned(s.own, s.loc, s.cmds, s.bufPool) && Placed(s.q, s.loc)
    requires OnScript(s.fil, AllOps(s.q.nandWait, s.cmds, s.bufAddr), s.pos, |s.log|)
    ensures var t := MapCmd(s); OnScript(t.fil, AllOps(t.q.nandWait, t.cmds, t.bufAddr), t.pos, |t.log|)
  {
    hide OnScript, Owned, Placed, AddrOf, EndPos, WritesOn, Replay, CmdOps, Exec, AllOps, Given, Remapped, Digits;
    var c, t := s.q.ftlWait[0], MapCmd(s);
    var cmd := s.cmds[c];
    NewAddrsFacts(s, Wr);
    WaitingSame(s, t, c);
    AllOpsAppend(s.q.nandWait, c, s.cmds, t.bufAddr);
    forall w: WayId
      ensures Exec(EndPos(WritesOn(w, |s.log|)), RQ.Pick(CmdOps(c, Wr, cmd.buf, t.bufAddr), w)) == Some(EndPos(WritesOn(w, |t.log|)))
    {
      WritesFitEnd(c, cmd.buf, t.bufAddr, |s.log|, w);
    }
    OnScriptAppend(s.fil, AllOps(s.q.nandWait, s.cmds, s.bufAddr), CmdOps(c, Wr, cmd.buf, t.bufAddr), s.pos, |s.log|, |t.log|);
  }

  /** What enters the log for block i is the host's block i. */
  lemma LoggedIsSent(s: State)
    requires Mapping(s, Wr) && Owned(s.own, s.loc, s.cmds, s.bufPool) && BufsOk(s)
    ensures var c, t := s.q.ftlWait[0], MapCmd(s);
            forall i :: 0 <= i < |s.cmds[c].buf| ==> t.log[|s.log| + i] == s.mem[s.cmds[c].buf[i]] == s.note[c].payload[i]
  {
    var c, t := s.q.ftlWait[0], MapCmd(s);
    forall i | 0 <= i < |s.cmds[c].buf|
      ensures t.log[|s.log| + i] == s.mem[s.cmds[c].buf[i]] == s.note[c].payload[i]
    {
      var b := s.cmds[c].buf[i];
      assert s.own[b] == Some(Slot(c, i));
      BufsAt(s, b);
    }
  }

  lemma NewEntry(s: State, x: nat)
    requires Mapping(s, Wr) && Owned(s.own, s.loc, s.cmds, s.bufPool) && BufsOk(s)
    requires var cmd := s.cmds[s.q.ftlWait[0]]; cmd.lba <= x < cmd.lba + |cmd.buf|
    ensures var t, c := MapCmd(s), s.q.ftlWait[0];
            EntryOk(t.l2p[x], Some(s.note[c].payload[x - s.cmds[c].lba]), t.log)
  {
    hide Owned, BufsOk, Replay, AddrOf, Digits, Given, NewAddrs, LogIndex, CmdOk;
    var i := x - s.cmds[s.q.ftlWait[0]].lba;
    LoggedIsSent(s);
    AddrOfFacts(|s.log| + i);
  }

  lemma MapWriteTable(s: State)
    requires Mapping(s, Wr) && Owned(s.own, s.loc, s.cmds, s.bufPool) && BufsOk(s) && TableOk(s.l2p, s.log, s.hist)
    ensures var t := MapCmd(s); TableOk(t.l2p, t.log, t.hist)
  {
    hide Owned, TableOk, BufsOk, Replay, AddrOf, StoreAll, EntryOk;
    var c, t := s.q.ftlWait[0], MapCmd(s);
    var cmd := s.cmds[c];
    ReplayMore(s.hist, t.hist[|s.hist|]);
    var more := t.log[|s.log|..];
    assert t.log == s.log + more;
    forall x: nat | x < 16777216
      ensures EntryOk(t.l2p[x], Lookup(Replay(t.hist), x), t.log)
    {
      StoreAllLookup(Replay(s.hist), cmd.lba, s.note[c].payload, x);
      if cmd.lba <= x < cmd.lba + |cmd.buf| {
        NewEntry(s, x);
      } else {
        TableAt(s, x);
        EntryOkGrows(s.l2p[x], Lookup(Replay(s.hist), x), s.log, more);
      }
    }
    TableFrom(t);
  }

  lemma TableFrom(t: State)
    requires forall x: nat :: x < 16777216 ==> EntryOk(t.l2p[x], Lookup(Replay(t.hist), x), t.log)
    ensures TableOk(t.l2p, t.log, t.hist)
  {
  }

  lemma MapWriteOwnBuf(s: State, b: BufId)
    requires Mapping(s, Wr) && Owned(s.own, s.loc, s.cmds, s.bufPool) && BufsOk(s)
    requires s.own[b].Some? && s.own[b].value.cmd == s.q.ftlWait[0]
    ensures BufOkAt(MapCmd(s), b)
  {
    hide Owned, BufsOk, Replay, AddrOf, Given, Remapped, Digits;
    NewAddrsFacts(s, Wr);
    LoggedIsSent(s);
    OwnSlot(s, b);
    AddrOfFacts(|s.log| + s.own[b].value.i);
  }

  lemma MapWriteBufs(s: State)
    requires Mapping(s, Wr) && Owned(s.own, s.loc, s.cmds, s.bufPool) && BufsOk(s)
    ensures BufsOk(MapCmd(s))
  {
    hide Owned, BufsOk, BufOkAt, Replay, AddrOf, Given, Remapped, Digits;
    var c, t := s.q.ftlWait[0], MapCmd(s);
    var n := |s.log|;
    NewAddrsFacts(s, Wr);
    forall b: BufId | t.own[b].Some? && t.own[b].value.cmd == c
      ensures BufOkAt(t, b)
    {
      MapWriteOwnBuf(s, b);
    }
    assert t.log == s.log + t.log[n..];
    BufsGrow(s, t, c, t.log[n..], t.hist[|s.hist|]);
  }

  lemma MapWriteFlash(s: State)
    requires Mapping(s, Wr) && FlashOk(s.flash, s.pos, s.log)
    ensures var t := MapCmd(s); FlashOk(t.flash, t.pos, t.log)
  {
    var more := MapCmd(s).log[|s.log|..];
    forall w: WayId
      ensures HoldsLog(s.flash[w], s.pos[w], w, MapCmd(s).log)
    {
      HoldsLogGrows(s.flash[w], s.pos[w], w, s.log, more);
      assert MapCmd(s).log == s.log + more;
    }
  }

  lemma MapWriteMoved(s: State)
    requires Mapping(s, Wr) && Placed(s.q, s.loc)
    ensures Placed(MapCmd(s).q, MapCmd(s).loc)
  {
    hide Placed, Given, Remapped, Replay, Digits;
    Moved(s.q, MapCmd(s).q, s.loc, s.q.ftlWait[0], InFtlWait, InNandWait);
  }

  lemma MapWriteKeeps(s: State)
    requires Inv(s) && CanMap(s) && s.cmds[s.q.ftlWait[0]].typ == Wr
    ensures Inv(MapCmd(s))
  {
    hide Placed, CmdsOk, HeadOnly, Counted, Owned, Requested, Paired, OnScript, FlashOk, TableOk, BufsOk, DmaOk,
         SentOk, HistOk, Given, Remapped, Replay, AllOps, Digits, NewAddrs, NewAddr;
    var c, t := s.q.ftlWait[0], MapCmd(s);
    var e := Wrote(s.note[c].uid, s.cmds[c].lba, s.note[c].payload);
    AtHead(s.q, s.loc, InFtlWait);
    CmdOkAt(s, c);
    MapWriteMoved(s);
    CmdsOkGrows(s, t, c, e);
    CountedStep(s, t, c);
    OwnedStep(s, t, c);
    NewAddrsFacts(s, Wr);
    RequestedStep(s, t, c);
    MapWriteScript(s);
    MapWriteFlash(s);
    MapWriteTable(s);
    MapWriteBufs(s);
    DmaStep(s, t, c);
    SentOkGrows(s.sent, s.hist, e);
    HistOkGrows(s.hist, e);
  }
}
