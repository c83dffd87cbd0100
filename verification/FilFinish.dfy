/** fil_process_nand: when the NAND driver reports DONE for the first request of a way, the
    request was within the discipline of the medium, and finishing it keeps the invariant. */
module FilFinish {
  import opened Base
  import opened NandAddress
  import opened Model
  import opened WayScript
  import RQ = RequestQueues
  import opened Pipeline
  import opened Invariant
  import opened Preservation
  import opened FilFanOut

  /** An erase still to come lies at or after the current position. */
  lemma {:induction false} EraseLater(t: nat, ops: seq<Op>, j: nat)
    requires Exec(t, ops).Some? && j < |ops| && ops[j].kind == EraseOp
    ensures 129 * (ops[j].addr.block - FIRST_BLOCK) >= t
    decreases ops
  {
    if j == 0 {
    } else {
      EraseLater(Advance(t, ops[0]).value, ops[1..], j - 1);
    }
  }

  lemma {:induction false} PendingDrop(buf: seq<BufId>, k: RQ.ReqPlace, i: nat)
    requires NoDup(buf) && i < |buf| && k[RQ.DataKey(buf[i])].Some?
    ensures Pending(buf, k[RQ.DataKey(buf[i]) := None]) == Pending(buf, k) - 1
    decreases buf
  {
    var n := |buf| - 1;
    var k' := k[RQ.DataKey(buf[i]) := None];
    if i < n {
      PendingDrop(buf[..n], k, i);
    } else {
      forall j | 0 <= j < n
        ensures k'[RQ.DataKey(buf[..n][j])] == k[RQ.DataKey(buf[..n][j])]
      {
      }
      PendingSame(buf[..n], k, k');
    }
  }

  // ---------------------------------------------------------------- the head request

  ghost predicate Waiting(s: State, w: WayId) {
    s.fil.queues[w] != []
  }

  function HeadOp(s: State, w: WayId): Op
    requires s.fil.queues[w] != []
  {
    s.fil.queues[w][0].op
  }

  lemma HeadFacts(s: State, w: WayId)
    requires Waiting(s, w) && Requested(s.fil, s.own, s.loc, s.cmds, s.bufAddr)
    ensures var op := HeadOp(s, w);
            ReqOk(w, op, s.own, s.loc, s.cmds, s.bufAddr) && s.fil.keyAt[RQ.KeyOf(op)] == Some(w)
    ensures RQ.Valid(RQ.Dequeue(s.fil, w))
  {
    RQ.DequeueValid(s.fil, w);
    ReqAt(s, w, 0);
  }

  /** The data that belongs to the page a read or program addresses. */
  lemma HeadData(s: State, w: WayId)
    requires Waiting(s, w) && Requested(s.fil, s.own, s.loc, s.cmds, s.bufAddr) && BufsOk(s)
    requires HeadOp(s, w).kind != EraseOp
    ensures var op := HeadOp(s, w); var o := s.own[op.buf].value;
            && Handed(op.addr, s.log)
            && (op.kind == ProgramOp ==> s.mem[op.buf] == s.log[LogIndex(op.addr)])
            && (op.kind == ReadOp ==>
                  && s.note[o.cmd].at < |s.hist| && s.hist[s.note[o.cmd].at].Looked?
                  && o.i < |s.hist[s.note[o.cmd].at].want|
                  && s.hist[s.note[o.cmd].at].want[o.i] == Some(s.log[LogIndex(op.addr)]))
  {
    hide Requested, BufsOk, AddrOf;
    HeadFacts(s, w);
    BufsAt(s, HeadOp(s, w).buf);
  }

  lemma ScriptHead(s: State, w: WayId, ops: seq<Op>)
    requires Waiting(s, w) && OnScript(s.fil, ops, s.pos, |s.log|)
    ensures var op := HeadOp(s, w);
            && Advance(s.pos[w], op).Some?
            && Exec(Advance(s.pos[w], op).value, Todo(RQ.Dequeue(s.fil, w), ops, w)) == Some(EndPos(WritesOn(w, |s.log|)))
  {
    hide EndPos, WritesOn, Advance, RQ.Pick;
    var q := s.fil.queues[w];
    RQ.PopReq(q);
    var all := Todo(s.fil, ops, w);
    assert all[0] == HeadOp(s, w);
    assert all[1..] == Todo(RQ.Dequeue(s.fil, w), ops, w);
    assert Exec(s.pos[w], all).Some?;
  }

  lemma FlashAt(s: State, w: WayId)
    requires FlashOk(s.flash, s.pos, s.log)
    ensures HoldsLog(s.flash[w], s.pos[w], w, s.log)
  {
  }

  /** A finishing operation fits the medium: it reads a programmed page and gets its write's data,
      programs the next page of an erased block, or erases a block without data. */
  lemma FinishFits(s: State, w: WayId)
    requires Waiting(s, w) && Requested(s.fil, s.own, s.loc, s.cmds, s.bufAddr) && BufsOk(s) && FlashOk(s.flash, s.pos, s.log)
    requires Advance(s.pos[w], HeadOp(s, w)).Some?
    ensures var op := HeadOp(s, w);
            && Disciplined(s.flash[w], op)
            && HoldsLog(Medium(s.flash[w], op, s.mem), Advance(s.pos[w], op).value, w, s.log)
            && (op.kind == ReadOp ==> Handed(op.addr, s.log)
                                      && s.flash[w][op.addr.block][op.addr.page] == s.log[LogIndex(op.addr)])
  {
    hide Requested, BufsOk, FlashOk, AddrOf, HoldsLog, ScriptAt, ProgPos;
    var op := HeadOp(s, w);
    FlashAt(s, w);
    HeadFacts(s, w);
    match op.kind
    case ReadOp =>
      HeadData(s, w);
      AddrOfFacts(LogIndex(op.addr));
      ReadFits(s.flash[w], s.pos[w], w, s.log, op.addr);
    case ProgramOp =>
      HeadData(s, w);
      ProgramFits(s.flash[w], s.pos[w], w, s.log, op.addr, s.mem[op.buf]);
    case EraseOp =>
      EraseFits(s.flash[w], s.pos[w], w, s.log, op.addr);
  }

  /** The discipline of the medium is never broken. */
  lemma AlwaysDisciplined(s: State, w: WayId)
    requires Inv(s) && s.fil.queues[w] != []
    ensures CanFinish(s, w)
  {
    hide Placed, CmdsOk, HeadOnly, Counted, Owned, Requested, Paired, OnScript, FlashOk, TableOk, BufsOk, DmaOk,
         SentOk, HistOk;
    ScriptHead(s, w, AllOps(s.q.nandWait, s.cmds, s.bufAddr));
    FinishFits(s, w);
  }

  // ---------------------------------------------------------------- finishing, part by part

  ghost predicate Finishing(s: State, w: WayId, c: CmdId) {
    CanFinish(s, w) && c == HeadOp(s, w).cmd
  }

  lemma FinishFlash(s: State, w: WayId)
    requires CanFinish(s, w) && Requested(s.fil, s.own, s.loc, s.cmds, s.bufAddr) && BufsOk(s) && FlashOk(s.flash, s.pos, s.log)
    requires Advance(s.pos[w], HeadOp(s, w)).Some?
    ensures var t := Finish(s, w); FlashOk(t.flash, t.pos, t.log) && t.pos[w] == Advance(s.pos[w], HeadOp(s, w)).value
  {
    hide Requested, BufsOk, HoldsLog, ScriptAt, ProgPos;
    FinishFits(s, w);
    var t := Finish(s, w);
    forall v: WayId
      ensures HoldsLog(t.flash[v], t.pos[v], v, t.log)
    {
      FlashAt(s, v);
    }
  }

  lemma FinishScript(s: State, w: WayId, ops: seq<Op>)
    requires CanFinish(s, w) && OnScript(s.fil, ops, s.pos, |s.log|)
    ensures var t := Finish(s, w); OnScript(t.fil, ops, t.pos, |t.log|)
  {
    hide EndPos, WritesOn, RQ.Pick, ScriptAt, ProgPos, Exec;
    ScriptHead(s, w, ops);
    var t := Finish(s, w);
    forall v: WayId
      ensures Exec(t.pos[v], Todo(t.fil, ops, v)) == Some(EndPos(WritesOn(v, |t.log|)))
    {
      if v != w {
        assert Todo(t.fil, ops, v) == Todo(s.fil, ops, v);
      }
    }
  }

  /** When a program is about to finish, the erase made with it is already gone. */
  lemma EraseGone(s: State, w: WayId, ops: seq<Op>)
    requires Waiting(s, w) && Requested(s.fil, s.own, s.loc, s.cmds, s.bufAddr) && OnScript(s.fil, ops, s.pos, |s.log|)
    requires HeadOp(s, w).kind == ProgramOp
    ensures s.fil.keyAt[RQ.EraseKey(HeadOp(s, w).buf)] == None
  {
    hide Requested, EndPos, WritesOn, RQ.Pick;
    var op := HeadOp(s, w);
    HeadFacts(s, w);
    ScriptHead(s, w, ops);
    if s.fil.keyAt[RQ.EraseKey(op.buf)].Some? {
      OutstandingOwner(s, op.buf, RQ.EraseKey(op.buf));
      RequestedValid(s);
      var j := KeyHasRequest(s.fil, RQ.EraseKey(op.buf), w);
      ReqAt(s, w, j);
      var all := Todo(s.fil, ops, w);
      assert all[j] == s.fil.queues[w][j].op;
      EraseLater(s.pos[w], all, j);
    }
  }

  lemma FinishPaired(s: State, w: WayId, ops: seq<Op>)
    requires CanFinish(s, w) && Requested(s.fil, s.own, s.loc, s.cmds, s.bufAddr) && OnScript(s.fil, ops, s.pos, |s.log|)
    requires Paired(s.fil.keyAt)
    ensures Paired(Finish(s, w).fil.keyAt)
  {
    hide Requested, OnScript;
    HeadFacts(s, w);
    var op := HeadOp(s, w);
    if op.kind == ProgramOp {
      EraseGone(s, w, ops);
    } else if op.kind == ReadOp {
      if s.fil.keyAt[RQ.EraseKey(op.buf)].Some? {
        OutstandingOwner(s, op.buf, RQ.EraseKey(op.buf));
        ReadHasNoErase(s, op.buf);
      }
    }
  }

  lemma ReadHasNoErase(s: State, b: BufId)
    requires Requested(s.fil, s.own, s.loc, s.cmds, s.bufAddr) && s.fil.keyAt[RQ.EraseKey(b)].Some?
    ensures s.own[b].Some? && s.cmds[s.own[b].value.cmd].typ == Wr
  {
    var w := s.fil.keyAt[RQ.EraseKey(b)].value;
    var j := KeyHasRequest(s.fil, RQ.EraseKey(b), w);
    assert ReqOk(w, s.fil.queues[w][j].op, s.own, s.loc, s.cmds, s.bufAddr);
  }

  /** The command of a finished read or program is one request closer to completion. */
  lemma FinishCountOwn(s: State, w: WayId, c: CmdId)
    requires Finishing(s, w, c) && HeadOp(s, w).kind != EraseOp
    requires Requested(s.fil, s.own, s.loc, s.cmds, s.bufAddr) && Owned(s.own, s.loc, s.cmds, s.bufPool)
    requires Counted(s.loc, s.cmds, s.fil.keyAt)
    ensures var t := Finish(s, w);
            && s.loc[c] == InFil
            && t.cmds[c].ndone + Pending(t.cmds[c].buf, t.fil.keyAt) == t.cmds[c].nblock
            && (t.loc[c] == InFil <==> Pending(t.cmds[c].buf, t.fil.keyAt) > 0)
            && (t.loc[c] != InFil ==> t.loc[c] == if s.cmds[c].typ == Rd then InRWait else InDone)
  {
    hide Requested, Owned, Counted;
    HeadFacts(s, w);
    CountedAt(s, c);
    var op := HeadOp(s, w);
    OwnSlot(s, op.buf);
    PendingDrop(s.cmds[c].buf, s.fil.keyAt, s.own[op.buf].value.i);
  }

  lemma FinishCounted(s: State, w: WayId, c: CmdId)
    requires Finishing(s, w, c)
    requires Requested(s.fil, s.own, s.loc, s.cmds, s.bufAddr) && Owned(s.own, s.loc, s.cmds, s.bufPool)
    requires Counted(s.loc, s.cmds, s.fil.keyAt)
    ensures var t := Finish(s, w); Counted(t.loc, t.cmds, t.fil.keyAt)
  {
    hide Requested, Owned, Counted;
    var t, op := Finish(s, w), HeadOp(s, w);
    HeadFacts(s, w);
    if op.kind != EraseOp {
      FinishCountOwn(s, w, c);
    }
    forall x: CmdId | t.loc[x] == InFil
      ensures t.cmds[x].ndone + Pending(t.cmds[x].buf, t.fil.keyAt) == t.cmds[x].nblock && Pending(t.cmds[x].buf, t.fil.keyAt) > 0
    {
      if x != c || op.kind == EraseOp {
        CountedAt(s, x);
        var buf := s.cmds[x].buf;
        forall i | 0 <= i < |buf|
          ensures t.fil.keyAt[RQ.DataKey(buf[i])] == s.fil.keyAt[RQ.DataKey(buf[i])]
        {
          SlotOwn(s, x, buf[i]);
        }
        PendingSame(buf, s.fil.keyAt, t.fil.keyAt);
      }
    }
    CountedFrom(t);
  }

  lemma CountedFrom(t: State)
    requires forall x: CmdId :: t.loc[x] == InFil ==>
               t.cmds[x].ndone + Pending(t.cmds[x].buf, t.fil.keyAt) == t.cmds[x].nblock && Pending(t.cmds[x].buf, t.fil.keyAt) > 0
    ensures Counted(t.loc, t.cmds, t.fil.keyAt)
  {
  }

  /** A request that is still listed has its buffer's data key taken. */
  lemma ListedMeansPending(fil: RQ.Fil, w: WayId, k: nat)
    requires RQ.Valid(fil) && Paired(fil.keyAt) && k < |fil.queues[w]|
    ensures fil.keyAt[RQ.DataKey(fil.queues[w][k].op.buf)].Some?
  {
    var op := fil.queues[w][k].op;
    assert RQ.Keys(fil.queues[w])[k] == RQ.KeyOf(op);
    assert RQ.KeyOf(op) in RQ.Keys(fil.queues[w]);
  }

  /** After the last request of a command nothing refers to it any more. */
  lemma FinishRequested(s: State, w: WayId, c: CmdId)
    requires Finishing(s, w, c) && Paired(Finish(s, w).fil.keyAt)
    requires Requested(s.fil, s.own, s.loc, s.cmds, s.bufAddr) && Owned(s.own, s.loc, s.cmds, s.bufPool)
    requires Counted(s.loc, s.cmds, s.fil.keyAt)
    ensures var t := Finish(s, w); Requested(t.fil, t.own, t.loc, t.cmds, t.bufAddr)
  {
    hide Requested, Owned, Counted, Paired, RQ.Valid, Disciplined, Medium, Memory, Pending;
    var t := Finish(s, w);
    HeadFacts(s, w);
    forall v: WayId, k: nat | k < |t.fil.queues[v]|
      ensures ReqOk(v, t.fil.queues[v][k].op, t.own, t.loc, t.cmds, t.bufAddr)
    {
      FinishReq(s, w, c, v, k);
    }
    RequestedFrom(t);
  }

  lemma FinishReq(s: State, w: WayId, c: CmdId, v: WayId, k: nat)
    requires Finishing(s, w, c) && Paired(Finish(s, w).fil.keyAt) && k < |Finish(s, w).fil.queues[v]|
    requires Requested(s.fil, s.own, s.loc, s.cmds, s.bufAddr) && Owned(s.own, s.loc, s.cmds, s.bufPool)
    requires Counted(s.loc, s.cmds, s.fil.keyAt)
    ensures var t := Finish(s, w); ReqOk(v, t.fil.queues[v][k].op, t.own, t.loc, t.cmds, t.bufAddr)
  {
    hide Requested, Owned, Counted, Paired, RQ.Valid, Disciplined, Medium, Memory, Pending, WayOf;
    var op := Finish(s, w).fil.queues[v][k].op;
    HeadFacts(s, w);
    ReqAt(s, v, if v == w then k + 1 else k);
    assert op == s.fil.queues[v][if v == w then k + 1 else k].op;
    assert ReqOk(v, op, s.own, s.loc, s.cmds, s.bufAddr);
    if op.cmd == c && HeadOp(s, w).kind != EraseOp {
      FinishLeavesOne(s, w, c, v, k);
    }
  }

  /** While a request of its command is listed, finishing an operation does not pass the command on. */
  lemma FinishLeavesOne(s: State, w: WayId, c: CmdId, v: WayId, k: nat)
    requires Finishing(s, w, c) && Paired(Finish(s, w).fil.keyAt) && k < |Finish(s, w).fil.queues[v]|
    requires Requested(s.fil, s.own, s.loc, s.cmds, s.bufAddr) && Owned(s.own, s.loc, s.cmds, s.bufPool)
    requires Counted(s.loc, s.cmds, s.fil.keyAt) && HeadOp(s, w).kind != EraseOp
    requires Finish(s, w).fil.queues[v][k].op.cmd == c
    ensures Finish(s, w).loc == s.loc
  {
    hide Requested, Owned, Counted, Paired, RQ.Valid, Disciplined, Medium, Memory, Pending, WayOf;
    var t := Finish(s, w);
    HeadFacts(s, w);
    ReqAt(s, v, if v == w then k + 1 else k);
    FinishCountOwn(s, w, c);
    ListedMeansPending(t.fil, v, k);
    OwnSlot(s, t.fil.queues[v][k].op.buf);
    PendingNone(t.cmds[c].buf, t.fil.keyAt);
  }

  lemma FinishOwnBuf(s: State, w: WayId, c: CmdId, b: BufId)
    requires Finishing(s, w, c) && BufsOk(s) && FlashOk(s.flash, s.pos, s.log)
    requires Advance(s.pos[w], HeadOp(s, w)).Some?
    requires Requested(s.fil, s.own, s.loc, s.cmds, s.bufAddr) && Owned(s.own, s.loc, s.cmds, s.bufPool)
    requires Counted(s.loc, s.cmds, s.fil.keyAt) && s.own[b].Some? && s.own[b].value.cmd == c
    ensures BufOkAt(Finish(s, w), b)
  {
    hide Requested, Owned, Counted, BufsOk, FlashOk, RQ.Valid, AddrOf, HoldsLog, ScriptAt, ProgPos, Disciplined,
         Pending, Handed, Advance;
    var t, op := Finish(s, w), HeadOp(s, w);
    HeadFacts(s, w);
    FinishFits(s, w);
    BufsAt(s, b);
    OwnSlot(s, b);
    if op.kind != EraseOp {
      HeadData(s, w);
      FinishCountOwn(s, w, c);
      PendingNone(t.cmds[c].buf, t.fil.keyAt);
    }
  }

  lemma FinishOtherBufs(s: State, w: WayId, c: CmdId)
    requires Finishing(s, w, c) && Requested(s.fil, s.own, s.loc, s.cmds, s.bufAddr)
    ensures OtherBufsSame(s, Finish(s, w), c)
  {
    hide Requested, RQ.Valid, Disciplined;
    HeadFacts(s, w);
  }

  lemma FinishBufs(s: State, w: WayId, c: CmdId)
    requires Finishing(s, w, c) && BufsOk(s) && FlashOk(s.flash, s.pos, s.log)
    requires Advance(s.pos[w], HeadOp(s, w)).Some?
    requires Requested(s.fil, s.own, s.loc, s.cmds, s.bufAddr) && Owned(s.own, s.loc, s.cmds, s.bufPool)
    requires Counted(s.loc, s.cmds, s.fil.keyAt)
    ensures BufsOk(Finish(s, w))
  {
    hide Requested, Owned, Counted, BufsOk, FlashOk, RQ.Valid, Disciplined, Advance, BufOkAt, OtherBufsSame, Medium,
         Memory;
    var t := Finish(s, w);
    FinishOtherBufs(s, w, c);
    forall b: BufId | t.own[b].Some? && t.own[b].value.cmd == c
      ensures BufOkAt(t, b)
    {
      FinishOwnBuf(s, w, c, b);
    }
    BufsStep(s, t, c);
  }

  lemma FinishCmd(s: State, w: WayId, c: CmdId)
    requires Finishing(s, w, c) && CmdOk(s.loc[c], s.cmds[c], s.note[c], s.hist)
    requires Requested(s.fil, s.own, s.loc, s.cmds, s.bufAddr) && Owned(s.own, s.loc, s.cmds, s.bufPool)
    requires Counted(s.loc, s.cmds, s.fil.keyAt)
    ensures var t := Finish(s, w); CmdOk(t.loc[c], t.cmds[c], t.note[c], t.hist) && Only(s, t, c)
    ensures s.loc[c] == InFil && Finish(s, w).loc[c] != InPool
  {
    hide Requested, Owned, Counted, Disciplined, Medium, Memory;
    HeadFacts(s, w);
    if HeadOp(s, w).kind != EraseOp {
      FinishCountOwn(s, w, c);
    }
  }

  lemma FinishPlaced(s: State, w: WayId, c: CmdId)
    requires Finishing(s, w, c) && Placed(s.q, s.loc) && s.loc[c] == InFil
    ensures var t := Finish(s, w); Placed(t.q, t.loc)
  {
    hide Placed, Disciplined;
    var t := Finish(s, w);
    if t.loc != s.loc {
      Moved(s.q, t.q, s.loc, c, InFil, t.loc[c]);
    }
  }

  lemma FinishKeeps(s: State, w: WayId)
    requires Inv(s) && CanFinish(s, w)
    ensures Inv(Finish(s, w))
  {
    hide Placed, CmdsOk, HeadOnly, Counted, Owned, Requested, Paired, OnScript, FlashOk, TableOk, BufsOk, DmaOk,
         SentOk, HistOk;
    hide AllOps, Disciplined, Medium, Memory, Advance, CmdOk, Only;
    var t, c := Finish(s, w), HeadOp(s, w).cmd;
    var ops := AllOps(s.q.nandWait, s.cmds, s.bufAddr);
    CmdOkAt(s, c);
    ScriptHead(s, w, ops);
    FinishCmd(s, w, c);
    FinishPlaced(s, w, c);
    CmdsOkStep(s, t, c);
    HeadOnlyStep(s, t, c);
    FinishCounted(s, w, c);
    OwnedStep(s, t, c);
    FinishPaired(s, w, ops);
    FinishRequested(s, w, c);
    AllOpsKept(s.q, s.loc, s.cmds, t.cmds, s.bufAddr);
    FinishScript(s, w, ops);
    FinishFlash(s, w);
    FinishBufs(s, w, c);
    DmaStep(s, t, c);
  }
}
