/** What the invariant means for the host and for the flash, over every run. */
module Theorems {
  import opened Base
  import opened NandAddress
  import opened Model
  import opened WayScript
  import RQ = RequestQueues
  import opened Pipeline
  import opened Invariant
  import opened Preservation
  import opened FtlPreservation
  import opened FilFanOut
  import opened FilFinish
  import opened Machine

  // ---------------------------------------------------------------- reads return the last write

  predicate Covers(e: Commit, x: nat) {
    e.Wrote? && e.lba <= x < e.lba + |e.blocks|
  }

  /** Commit k is the last of a history to write address x. */
  ghost predicate IsLastWrite(hist: seq<Commit>, k: nat, x: nat) {
    k < |hist| && Covers(hist[k], x) && forall j :: k < j < |hist| ==> !Covers(hist[j], x)
  }

  /** The abstract disk holds, at each address, what the last write put there. */
  lemma {:induction false} ReplayIsLastWrite(hist: seq<Commit>, x: nat, k: nat)
    ensures IsLastWrite(hist, k, x) ==> Lookup(Replay(hist), x) == Some(hist[k].blocks[x - hist[k].lba])
    ensures (forall j :: 0 <= j < |hist| ==> !Covers(hist[j], x)) ==> Lookup(Replay(hist), x) == None
    decreases |hist|
  {
    if hist == [] {
    } else {
      var n := |hist| - 1;
      var front, e := hist[..n], hist[n];
      ReplayIsLastWrite(front, x, k);
      if e.Wrote? {
        StoreAllLookup(Replay(front), e.lba, e.blocks, x);
      }
      if IsLastWrite(hist, k, x) && k < n {
        assert IsLastWrite(front, k, x);
      }
    }
  }

  /** Linearizability of reads: whatever block has reached the host for a read is the block of the
      last write to that address that left ftl_wait_q before the read did. */
  lemma ReadsReturnLastWrite(states: seq<State>, steps: seq<Step>, i: nat, x: Sent, k: nat)
    requires IsRun(states, steps) && i < |states| && x in states[i].sent
    ensures var hist := states[i].hist;
            && x.at < |hist| && hist[x.at].Looked? && x.i < |hist[x.at].want|
            && (IsLastWrite(hist[..x.at], k, hist[x.at].lba + x.i) ==>
                  x.got == hist[k].blocks[hist[x.at].lba + x.i - hist[k].lba])
  {
    EveryRun(states, steps, i);
    SentIsWanted(states[i], x);
    ReplayIsLastWrite(states[i].hist[..x.at], states[i].hist[x.at].lba + x.i, k);
  }

  lemma SentIsWanted(s: State, x: Sent)
    requires Inv(s) && x in s.sent
    ensures x.at < |s.hist| && s.hist[x.at].Looked? && x.i < |s.hist[x.at].want|
    ensures var d := Lookup(Replay(s.hist[..x.at]), s.hist[x.at].lba + x.i);
            s.hist[x.at].want[x.i] == d && (d.Some? ==> x.got == d.value)
  {
  }

  /** The same before the transfer has happened: as long as a transmit descriptor is outstanding
      its buffer keeps the block to be returned. */
  lemma TransmitBufferStable(s: State, b: BufId)
    requires Inv(s) && b in s.tx
    ensures s.own[b].Some?
    ensures var o := s.own[b].value; var at := s.note[o.cmd].at;
            && at < |s.hist| && s.hist[at] == Looked(s.note[o.cmd].uid, s.cmds[o.cmd].lba, s.hist[at].want)
            && (forall d :: Lookup(Replay(s.hist[..at]), s.cmds[o.cmd].lba + o.i) == Some(d) ==> s.mem[b] == d)
  {
    hide Placed, HeadOnly, Counted, Requested, Paired, OnScript, FlashOk, TableOk, SentOk;
    BufsAt(s, b);
    CmdOkAt(s, s.own[b].value.cmd);
  }

  // ---------------------------------------------------------------- conservation

  /** Some read or program of command c is still listed. */
  ghost predicate HasRequest(s: State, c: CmdId) {
    exists w: WayId, k: nat :: k < |s.fil.queues[w]| && RequestOf(s, c, w, k)
  }

  ghost predicate RequestOf(s: State, c: CmdId, w: WayId, k: nat)
    requires k < |s.fil.queues[w]|
  {
    s.fil.queues[w][k].op.cmd == c
  }

  lemma FilHasRequest(s: State, c: CmdId)
    requires Inv(s)
    ensures s.loc[c] == InFil <==> HasRequest(s, c)
  {
    hide Placed, CmdsOk, HeadOnly, Counted, Requested, Owned, OnScript, FlashOk, TableOk, BufsOk, DmaOk, SentOk,
         HistOk;
    if s.loc[c] == InFil {
      CountedAt(s, c);
      var buf := s.cmds[c].buf;
      PendingNone(buf, s.fil.keyAt);
      var i :| 0 <= i < |buf| && s.fil.keyAt[RQ.DataKey(buf[i])].Some?;
      SlotOwn(s, c, buf[i]);
      OutstandingOwner(s, buf[i], RQ.DataKey(buf[i]));
      RequestedValid(s);
      var w := s.fil.keyAt[RQ.DataKey(buf[i])].value;
      var k := KeyHasRequest(s.fil, RQ.DataKey(buf[i]), w);
      ReqAt(s, w, k);
      assert s.fil.queues[w][k].op.buf == buf[i];
      assert RequestOf(s, c, w, k);
    }
    if HasRequest(s, c) {
      var w: WayId, k: nat :| k < |s.fil.queues[w]| && RequestOf(s, c, w, k);
      ReqAt(s, w, k);
    }
  }

  /** Every command struct is in exactly one queue, once, or has a request listed; never both. */
  lemma CommandsConserved(s: State, c: CmdId)
    requires Inv(s)
    ensures HasRequest(s, c) <==> forall l: Loc :: l != InFil ==> c !in QueueAt(s.q, l)
    ensures forall l: Loc, l': Loc :: l != InFil && l' != InFil && c in QueueAt(s.q, l) && c in QueueAt(s.q, l') ==> l == l'
    ensures forall l: Loc :: l != InFil ==> NoDup(QueueAt(s.q, l))
  {
    hide CmdsOk, HeadOnly, Counted, Requested, Owned, OnScript, FlashOk, TableOk, BufsOk, DmaOk, SentOk, HistOk;
    FilHasRequest(s, c);
    forall l: Loc | l != InFil
      ensures c in QueueAt(s.q, l) <==> s.loc[c] == l
      ensures NoDup(QueueAt(s.q, l))
    {
      assert Lists(QueueAt(s.q, l), s.loc, l);
    }
    if s.loc[c] != InFil {
      assert c in QueueAt(s.q, s.loc[c]);
    }
  }

  /** Slot i of a live command's ring is buffer b. */
  ghost predicate InSlot(s: State, b: BufId, c: CmdId, i: nat) {
    s.loc[c] != InPool && i < |s.cmds[c].buf| && s.cmds[c].buf[i] == b
  }

  /** Every DMA buffer is in the pool, once, or in exactly one slot of one live command. */
  lemma BuffersConserved(s: State, b: BufId)
    requires Inv(s)
    ensures NoDup(s.bufPool)
    ensures b in s.bufPool <==> forall c: CmdId, i: nat :: !InSlot(s, b, c, i)
    ensures forall c: CmdId, c': CmdId, i: nat, i': nat :: InSlot(s, b, c, i) && InSlot(s, b, c', i') ==> c == c' && i == i'
  {
    hide Placed, CmdsOk, HeadOnly, Counted, Requested, OnScript, FlashOk, TableOk, BufsOk, DmaOk, SentOk, HistOk;
    forall c: CmdId, i: nat | InSlot(s, b, c, i)
      ensures s.own[b] == Some(Slot(c, i))
    {
      assert s.own[s.cmds[c].buf[i]] == Some(Slot(c, i));
    }
    if s.own[b].Some? {
      assert InSlot(s, b, s.own[b].value.cmd, s.own[b].value.i);
    }
  }

  /** Entry k of a way's list is request struct id. */
  ghost predicate Listed(s: State, id: ReqId, w: WayId, k: nat) {
    k < |s.fil.queues[w]| && s.fil.queues[w][k].id == id
  }

  /** Every request struct is in the pool, once, or on exactly one list at one position. */
  lemma RequestsConserved(s: State, id: ReqId)
    requires Inv(s)
    ensures NoDup(s.fil.reqPool)
    ensures id in s.fil.reqPool <==> forall w: WayId, k: nat :: !Listed(s, id, w, k)
    ensures forall w: WayId, w': WayId, k: nat, k': nat :: Listed(s, id, w, k) && Listed(s, id, w', k') ==> w == w' && k == k'
  {
    hide Placed, CmdsOk, HeadOnly, Counted, Owned, OnScript, FlashOk, TableOk, BufsOk, DmaOk, SentOk, HistOk;
    forall w: WayId, k: nat | Listed(s, id, w, k)
      ensures RQ.Ids(s.fil.queues[w])[k] == id && s.fil.idAt[id] == Some(w)
    {
      assert RQ.Ids(s.fil.queues[w])[k] in RQ.Ids(s.fil.queues[w]);
    }
    if s.fil.idAt[id].Some? {
      var w := s.fil.idAt[id].value;
      assert id in RQ.Ids(s.fil.queues[w]);
      var k :| 0 <= k < |RQ.Ids(s.fil.queues[w])| && RQ.Ids(s.fil.queues[w])[k] == id;
      assert Listed(s, id, w, k);
    }
  }

  // ---------------------------------------------------------------- completion, exactly once

  /** Finishing a read or program completes its command exactly when no request of it is left;
      then, and only then, the command is appended to the one queue it belongs in. */
  lemma CompletesExactlyOnce(s: State, w: WayId)
    requires Inv(s) && CanFinish(s, w)
    ensures var t, op := Finish(s, w), s.fil.queues[w][0].op; var c, typ := op.cmd, s.cmds[op.cmd].typ;
            && c !in s.q.rWait && c !in s.q.done
            && t.q.rWait == (if typ == Rd && !HasRequest(t, c) then s.q.rWait + [c] else s.q.rWait)
            && t.q.done == (if typ == Wr && !HasRequest(t, c) then s.q.done + [c] else s.q.done)
            && (!HasRequest(t, c) ==> t.cmds[c].ndone == t.cmds[c].nblock)
  {
    hide Placed, CmdsOk, HeadOnly, Counted, Requested, Owned, Paired, OnScript, FlashOk, TableOk, BufsOk, DmaOk,
         SentOk, HistOk;
    hide Disciplined, Medium, Memory, AllOps;
    var t, c := Finish(s, w), HeadOp(s, w).cmd;
    FinishKeeps(s, w);
    FilHasRequest(t, c);
    CmdOkAt(s, c);
    CmdOkAt(t, c);
    FinishCmd(s, w, c);
    CommandsConserved(s, c);
    FilHasRequest(s, c);
    assert c !in QueueAt(s.q, InRWait) && c !in QueueAt(s.q, InDone);
    if HeadOp(s, w).kind != EraseOp {
      FinishCountOwn(s, w, c);
    }
  }

  /** A read none of whose blocks is mapped completes while it is fanned out, any other command
      enters the FIL with requests outstanding. */
  lemma FanOutCompletes(s: State)
    requires Inv(s) && s.q.nandWait != []
    ensures CanFanOut(s)
    ensures var t, c := FanOut(s), s.q.nandWait[0];
            && t.q.rWait == (if HasRequest(t, c) then s.q.rWait else s.q.rWait + [c])
            && (HasRequest(t, c) <==> s.cmds[c].typ == Wr || exists i :: 0 <= i < |s.cmds[c].buf| && s.bufAddr[s.cmds[c].buf[i]].valid)
  {
    hide Placed, CmdsOk, HeadOnly, Counted, Requested, Owned, Paired, OnScript, FlashOk, TableOk, BufsOk, DmaOk,
         SentOk, HistOk;
    hide CmdOps, AllOps;
    FanOutNeverStarves(s);
    var t, c := FanOut(s), s.q.nandWait[0];
    AtHead(s.q, s.loc, InNandWait);
    CmdOkAt(s, c);
    FanOutKeeps(s);
    FilHasRequest(t, c);
    FanOutCountOwn(s, c);
    var buf := s.cmds[c].buf;
    PendingNone(buf, t.fil.keyAt);
    forall i | 0 <= i < |buf|
      ensures t.fil.keyAt[RQ.DataKey(buf[i])].Some? <==> s.cmds[c].typ == Wr || s.bufAddr[buf[i]].valid
    {
      FanOutKey(s, c, buf[i]);
    }
    assert s.cmds[c].typ == Wr ==> t.fil.keyAt[RQ.DataKey(buf[0])].Some?;
  }

  // ---------------------------------------------------------------- flash discipline

  function ActOf(op: Op): Act {
    if op.kind == EraseOp then Erasing(op.addr.block) else Programming(op.addr.block, op.addr.page)
  }

  /** The erases and programs way w has executed in a run, in order. */
  ghost function Executed(states: seq<State>, steps: seq<Step>, w: WayId): seq<Act>
    requires IsRun(states, steps)
    decreases |steps|
  {
    if steps == [] then []
    else
      var n := |steps| - 1;
      var before := Executed(states[..n + 1], steps[..n], w);
      if steps[n] == FinishStep(w) && states[n].fil.queues[w][0].op.kind != ReadOp
      then before + [ActOf(states[n].fil.queues[w][0].op)]
      else before
  }

  /** On every way, every run executes Erase(50), Program(50, 0), ..., Program(50, 127),
      Erase(51), ... as far as it gets: no page is programmed twice, none out of order, none in a
      block that has not been erased, and no block is erased twice. */
  lemma {:induction false} FlashFollowsScript(states: seq<State>, steps: seq<Step>, w: WayId)
    requires IsRun(states, steps)
    ensures var acts := Executed(states, steps, w);
            && |acts| == states[|steps|].pos[w]
            && forall t :: 0 <= t < |acts| ==> acts[t] == ScriptAt(t)
    decreases |steps|
  {
    hide ScriptAt, Inv, Do, Enabled, Start, ActOf;
    if steps == [] {
      StartPos(w);
    } else {
      var n := |steps| - 1;
      assert IsRun(states[..n + 1], steps[..n]);
      FlashFollowsScript(states[..n + 1], steps[..n], w);
      EveryRun(states, steps, n);
      PosMoves(states[n], steps[n], w);
    }
  }

  lemma StartPos(w: WayId)
    ensures Start().pos[w] == 0
  {
  }

  lemma PosMoves(s: State, st: Step, w: WayId)
    requires Inv(s) && Enabled(s, st)
    ensures if st == FinishStep(w) && s.fil.queues[w][0].op.kind != ReadOp
            then Do(s, st).pos[w] == s.pos[w] + 1 && ActOf(s.fil.queues[w][0].op) == ScriptAt(s.pos[w])
            else Do(s, st).pos[w] == s.pos[w]
  {
    hide Placed, CmdsOk, HeadOnly, Counted, Requested, Owned, Paired, OnScript, FlashOk, TableOk, BufsOk, DmaOk,
         SentOk, HistOk;
    hide ScriptAt, AllOps;
    if st == FinishStep(w) {
      ScriptHead(s, w, AllOps(s.q.nandWait, s.cmds, s.bufAddr));
    }
  }

  /** An erase destroys nothing: the block it is about to clear holds no programmed page, whatever
      the mapping table says. */
  lemma EraseDestroysNothing(s: State, w: WayId)
    requires Inv(s) && s.fil.queues[w] != [] && s.fil.queues[w][0].op.kind == EraseOp
    ensures s.fil.queues[w][0].op.addr.block !in s.flash[w]
  {
    hide Inv;
    AlwaysDisciplined(s, w);
  }

  /** But the table does point into blocks whose erase is still to come: it is updated when the
      command leaves ftl_wait_q. Whenever a write is given page 0 of a block, the entry of that
      address leads to a block that has not been erased yet. */
  lemma MappedBeforeErased(s: State, i: nat)
    requires Inv(s) && CanMap(s) && s.cmds[s.q.ftlWait[0]].typ == Wr
    requires i < |s.cmds[s.q.ftlWait[0]].buf| && NewAddr(s, i).page == 0
    ensures var t, x := MapCmd(s), s.cmds[s.q.ftlWait[0]].lba + i;
            && t.l2p[x] == NewAddr(s, i) && t.l2p[x].valid
            && t.l2p[x].block !in t.flash[WayOf(t.l2p[x])]
  {
    hide Placed, CmdsOk, HeadOnly, Counted, Requested, Owned, Paired, TableOk, BufsOk, DmaOk, SentOk, HistOk;
    hide AllOps, HoldsLog, Replay;
    var n := |s.log| + i;
    AddrOfFacts(n);
    var w := WayOf(AddrOf(n));
    FlashAt(s, w);
    ErasedBehind(s, w, AllOps(s.q.nandWait, s.cmds, s.bufAddr));
    NotYetErased(s.flash[w], s.pos[w], w, s.log, n);
  }

  lemma {:induction false} ExecForward(t: nat, ops: seq<Op>)
    requires Exec(t, ops).Some?
    ensures t <= Exec(t, ops).value
    decreases ops
  {
    if ops == [] {
    } else {
      ExecForward(Advance(t, ops[0]).value, ops[1..]);
    }
  }

  lemma ErasedBehind(s: State, w: WayId, ops: seq<Op>)
    requires OnScript(s.fil, ops, s.pos, |s.log|)
    ensures s.pos[w] <= EndPos(WritesOn(w, |s.log|))
  {
    ExecForward(s.pos[w], Todo(s.fil, ops, w));
  }

  lemma NotYetErased(fl: Flash, t: nat, w: WayId, log: seq<Block>, n: nat)
    requires HoldsLog(fl, t, w, log) && t <= EndPos(WritesOn(w, |log|))
    requires |log| <= n < WRITE_LIMIT && AddrOf(n).page == 0 && w == WayOf(AddrOf(n))
    ensures AddrOf(n).block !in fl
  {
    AddrOfFacts(n);
    var k := n / 64;
    WriteContinues(k);
    assert n == 64 * k + w;
    assert WritesOn(w, |log|) <= k;
    assert EndPos(WritesOn(w, |log|)) <= EndPos(k);
    assert AddrOf(n).block == FIRST_BLOCK + k / 128 && k % 128 == 0;
    assert EndPos(k) == 129 * (k / 128);
  }

  lemma {:induction false} EraseAmongOps(c: CmdId, buf: seq<BufId>, a: AddrMem, i: nat)
    requires i < |buf| && a[buf[i]].page == 0
    ensures Op(EraseOp, a[buf[i]], c, buf[i]) in CmdOps(c, Wr, buf, a)
    decreases buf
  {
    var n := |buf| - 1;
    if i < n {
      EraseAmongOps(c, buf[..n], a, i);
    } else {
      assert BlockOps(c, Wr, buf[n], a[buf[n]])[0] == Op(EraseOp, a[buf[i]], c, buf[i]);
    }
  }

  lemma {:induction false} PickKeeps(ops: seq<Op>, op: Op)
    requires op in ops
    ensures op in RQ.Pick(ops, WayOf(op.addr))
    decreases ops
  {
    var n := |ops| - 1;
    if op == ops[n] {
    } else {
      assert op in ops[..n];
      PickKeeps(ops[..n], op);
    }
  }

  ghost predicate EraseListed(s: State, a: NandAddr) {
    exists k: nat :: k < |s.fil.queues[WayOf(a)]| && EraseAt(s, a, k)
  }

  ghost predicate EraseAt(s: State, a: NandAddr, k: nat)
    requires k < |s.fil.queues[WayOf(a)]|
  {
    s.fil.queues[WayOf(a)][k].op.kind == EraseOp && s.fil.queues[WayOf(a)][k].op.addr == a
  }

  /** So the erase of a block is listed while the table points into it: with nand_wait_q empty, a
      write that is given page 0 of a block is mapped and fanned out to a state where the erase of the
      block is on its way's list and the address leads into the block. */
  lemma EraseWhileMapped(s: State, i: nat)
    requires Inv(s) && CanMap(s) && s.q.nandWait == [] && s.cmds[s.q.ftlWait[0]].typ == Wr
    requires i < |s.cmds[s.q.ftlWait[0]].buf| && NewAddr(s, i).page == 0
    ensures CanFanOut(MapCmd(s))
    ensures var t, x := FanOut(MapCmd(s)), s.cmds[s.q.ftlWait[0]].lba + i;
            t.l2p[x].valid && t.l2p[x] == NewAddr(s, i) && EraseListed(t, NewAddr(s, i))
  {
    hide Inv, MapCmd, FanOut, CmdOps, Given, NewAddr;
    MapKeeps(s);
    MappedBeforeErased(s, i);
    MappedForFanOut(s, i);
    var m, a := MapCmd(s), NewAddr(s, i);
    FanOutNeverStarves(m);
    var c := s.q.ftlWait[0];
    EraseAmongOps(c, s.cmds[c].buf, m.bufAddr, i);
    var op := Op(EraseOp, a, c, s.cmds[c].buf[i]);
    FanOutLists(m, op);
    FanOutTable(m);
    var k: nat :| k < |FanOut(m).fil.queues[WayOf(a)]| && FanOut(m).fil.queues[WayOf(a)][k].op == op;
    assert EraseAt(FanOut(m), a, k);
  }

  lemma FanOutTable(s: State)
    requires CanFanOut(s)
    ensures FanOut(s).l2p == s.l2p
  {
  }

  lemma MappedForFanOut(s: State, i: nat)
    requires Inv(s) && CanMap(s) && s.q.nandWait == [] && i < |s.cmds[s.q.ftlWait[0]].buf|
    ensures var m, c := MapCmd(s), s.q.ftlWait[0];
            m.q.nandWait == [c] && m.cmds == s.cmds && m.bufAddr[s.cmds[c].buf[i]] == NewAddr(s, i)
  {
    hide Inv, Replay, Remapped, Digits, NewAddr;
    HeadRing(s);
    IndexOfUnique(s.cmds[s.q.ftlWait[0]].buf, i);
  }

  lemma HeadRing(s: State)
    requires Inv(s) && s.q.ftlWait != []
    ensures NoDup(s.cmds[s.q.ftlWait[0]].buf)
  {
    hide CmdsOk, HeadOnly, Counted, Requested, Paired, OnScript, FlashOk, TableOk, BufsOk, DmaOk, SentOk, HistOk;
    AtHead(s.q, s.loc, InFtlWait);
    BufNoDup(s.own, s.loc, s.cmds, s.bufPool, s.q.ftlWait[0]);
  }

  /** Every operation of a command that is fanned out is listed on its way. */
  lemma FanOutLists(s: State, op: Op)
    requires Inv(s) && s.q.nandWait != [] && CanFanOut(s)
    requires var c := s.q.nandWait[0]; op in CmdOps(c, s.cmds[c].typ, s.cmds[c].buf, s.bufAddr)
    ensures exists k: nat :: k < |FanOut(s).fil.queues[WayOf(op.addr)]| && FanOut(s).fil.queues[WayOf(op.addr)][k].op == op
  {
    hide CmdsOk, HeadOnly, Counted, Requested, Owned, Paired, OnScript, FlashOk, TableOk, BufsOk, DmaOk, SentOk,
         HistOk;
    hide CmdOps, FanOut;
    var c, w := s.q.nandWait[0], WayOf(op.addr);
    AtHead(s.q, s.loc, InNandWait);
    FanOutFil(s, c);
    PickKeeps(FanOps(s, c), op);
    var all := RQ.Ops(FanOut(s).fil.queues[w]);
    assert op in all;
    var k: nat :| k < |all| && all[k] == op;
    assert FanOut(s).fil.queues[w][k].op == op;
  }

  /** Every request's address was handed out for a block write of the log. */
  lemma RequestHanded(s: State, w: WayId, k: nat)
    requires Inv(s) && k < |s.fil.queues[w]|
    ensures var a := s.fil.queues[w][k].op.addr; Handed(a, s.log) && WayOf(a) == w
  {
    hide Placed, CmdsOk, HeadOnly, Counted, Requested, Owned, Paired, OnScript, FlashOk, TableOk, BufsOk, DmaOk,
         SentOk, HistOk, AddrOf;
    var op := s.fil.queues[w][k].op;
    ReqAt(s, w, k);
    BufsAt(s, op.buf);
    RequestedValid(s);
    KeyTaken(s.fil, w, k);
    if op.kind == EraseOp {
      PairedAt(s.fil.keyAt, op.buf);
    }
  }

  /** Every request's address is one the NAND driver's range assertion accepts. */
  lemma RequestsAddressable(s: State, w: WayId, k: nat)
    requires Inv(s) && k < |s.fil.queues[w]|
    ensures var a := s.fil.queues[w][k].op.addr;
            a.ch < USER_CHANNELS && a.way < USER_WAYS && a.block < TOTAL_BLOCKS_PER_DIE && a.page < PAGES_PER_MLC_BLOCK
  {
    hide Inv, AddrOf;
    RequestHanded(s, w, k);
    AddrOfFacts(LogIndex(s.fil.queues[w][k].op.addr));
  }

  lemma KeyTaken(fil: RQ.Fil, w: WayId, k: nat)
    requires RQ.Valid(fil) && k < |fil.queues[w]|
    ensures fil.keyAt[RQ.KeyOf(fil.queues[w][k].op)] == Some(w)
  {
    assert RQ.Keys(fil.queues[w])[k] in RQ.Keys(fil.queues[w]);
  }

  lemma PairedAt(keyAt: RQ.ReqPlace, b: BufId)
    requires Paired(keyAt) && keyAt[RQ.EraseKey(b)].Some?
    ensures keyAt[RQ.DataKey(b)].Some?
  {
  }
}
