/** fil_process_wait: turning a command into requests keeps the invariant, and the request pool
    is never empty when it is asked. */
module FilFanOut {
  import opened Base
  import opened NandAddress
  import opened Model
  import opened WayScript
  import RQ = RequestQueues
  import opened Pipeline
  import opened Invariant
  import opened Preservation

  // ---------------------------------------------------------------- counting

  lemma {:induction false} PendingSame(buf: seq<BufId>, k: RQ.ReqPlace, k': RQ.ReqPlace)
    requires forall i :: 0 <= i < |buf| ==> k'[RQ.DataKey(buf[i])].Some? == k[RQ.DataKey(buf[i])].Some?
    ensures Pending(buf, k') == Pending(buf, k)
    decreases buf
  {
    if buf == [] {
    } else {
      var n := |buf| - 1;
      forall i | 0 <= i < n
        ensures buf[..n][i] == buf[i]
      {
      }
      PendingSame(buf[..n], k, k');
    }
  }

  lemma {:induction false} PendingAll(buf: seq<BufId>, k: RQ.ReqPlace)
    requires forall i :: 0 <= i < |buf| ==> k[RQ.DataKey(buf[i])].Some?
    ensures Pending(buf, k) == |buf|
    decreases buf
  {
    if buf == [] {
    } else {
      var n := |buf| - 1;
      forall i | 0 <= i < n
        ensures buf[..n][i] == buf[i]
      {
      }
      PendingAll(buf[..n], k);
    }
  }

  lemma {:induction false} PendingNone(buf: seq<BufId>, k: RQ.ReqPlace)
    ensures Pending(buf, k) == 0 <==> forall i :: 0 <= i < |buf| ==> k[RQ.DataKey(buf[i])].None?
    decreases buf
  {
    if buf == [] {
    } else {
      var n := |buf| - 1;
      forall i | 0 <= i < n
        ensures buf[..n][i] == buf[i]
      {
      }
      PendingNone(buf[..n], k);
    }
  }

  lemma {:induction false} PendingMapped(buf: seq<BufId>, a: AddrMem, k: RQ.ReqPlace)
    requires forall i :: 0 <= i < |buf| ==> (k[RQ.DataKey(buf[i])].Some? <==> a[buf[i]].valid)
    ensures Unmapped(buf, a) + Pending(buf, k) == |buf|
    decreases buf
  {
    if buf == [] {
    } else {
      var n := |buf| - 1;
      forall i | 0 <= i < n
        ensures buf[..n][i] == buf[i]
      {
      }
      PendingMapped(buf[..n], a, k);
    }
  }

  // ---------------------------------------------------------------- the operations of a command

  /** An operation that fil_process_wait makes for slot i. */
  predicate MadeFor(op: Op, c: CmdId, typ: CmdType, buf: seq<BufId>, a: AddrMem, i: nat) {
    && i < |buf| && op.cmd == c && op.buf == buf[i] && op.addr == a[buf[i]]
    && (op.kind == ReadOp <==> typ == Rd)
    && (typ == Rd ==> op.addr.valid)
  }

  ghost predicate Made(op: Op, c: CmdId, typ: CmdType, buf: seq<BufId>, a: AddrMem) {
    exists i: nat :: MadeFor(op, c, typ, buf, a, i)
  }

  lemma {:induction false} CmdOpsMade(c: CmdId, typ: CmdType, buf: seq<BufId>, a: AddrMem)
    ensures forall op :: op in CmdOps(c, typ, buf, a) ==> Made(op, c, typ, buf, a)
    decreases buf
  {
    if buf == [] {
    } else {
      var n := |buf| - 1;
      CmdOpsMade(c, typ, buf[..n], a);
      forall op | op in CmdOps(c, typ, buf, a)
        ensures Made(op, c, typ, buf, a)
      {
        if op in CmdOps(c, typ, buf[..n], a) {
          var i: nat :| MadeFor(op, c, typ, buf[..n], a, i);
          assert MadeFor(op, c, typ, buf, a, i);
        } else {
          assert op in BlockOps(c, typ, buf[n], a[buf[n]]);
          assert MadeFor(op, c, typ, buf, a, n);
        }
      }
    }
  }

  /** No two operations of a command share a key. */
  lemma {:induction false} CmdOpsKeys(c: CmdId, typ: CmdType, buf: seq<BufId>, a: AddrMem)
    requires NoDup(buf)
    ensures RQ.Apart(CmdOps(c, typ, buf, a))
    decreases buf
  {
    if buf == [] {
    } else {
      var n := |buf| - 1;
      var front, last := CmdOps(c, typ, buf[..n], a), BlockOps(c, typ, buf[n], a[buf[n]]);
      CmdOpsKeys(c, typ, buf[..n], a);
      CmdOpsMade(c, typ, buf[..n], a);
      forall x | x in front
        ensures x.buf != buf[n]
      {
        var i: nat :| MadeFor(x, c, typ, buf[..n], a, i);
      }
      forall i, j | 0 <= i < j < |front + last|
        ensures RQ.KeyOf((front + last)[i]) != RQ.KeyOf((front + last)[j])
      {
        if i < |front| <= j {
          assert front[i] in front;
        }
      }
    }
  }

  /** Every mapped block of a read has a read and every block of a write has a program. */
  lemma {:induction false} CmdOpsCover(c: CmdId, typ: CmdType, buf: seq<BufId>, a: AddrMem, i: nat)
    requires i < |buf| && (typ == Wr || a[buf[i]].valid)
    ensures RQ.HasKey(CmdOps(c, typ, buf, a), RQ.DataKey(buf[i]))
    decreases buf
  {
    var n := |buf| - 1;
    var front, last := CmdOps(c, typ, buf[..n], a), BlockOps(c, typ, buf[n], a[buf[n]]);
    var all := CmdOps(c, typ, buf, a);
    assert all == front + last;
    if i < n {
      CmdOpsCover(c, typ, buf[..n], a, i);
      var j :| 0 <= j < |front| && RQ.KeyOf(front[j]) == RQ.DataKey(buf[..n][i]);
      assert all[j] == front[j];
    } else {
      var j := |front| + |last| - 1;
      assert all[j] == last[|last| - 1];
    }
  }

  lemma MadeKey(op: Op, c: CmdId, typ: CmdType, buf: seq<BufId>, a: AddrMem, b: BufId)
    requires Made(op, c, typ, buf, a)
    ensures RQ.KeyOf(op) == RQ.DataKey(b) ==> b in buf && (typ == Wr || a[b].valid)
    ensures RQ.KeyOf(op) == RQ.EraseKey(b) ==> b in buf && typ == Wr
  {
  }

  /** Which keys a command's operations take. */
  lemma CmdOpsKeySet(c: CmdId, typ: CmdType, buf: seq<BufId>, a: AddrMem, b: BufId)
    ensures RQ.HasKey(CmdOps(c, typ, buf, a), RQ.DataKey(b)) <==> b in buf && (typ == Wr || a[b].valid)
    ensures RQ.HasKey(CmdOps(c, typ, buf, a), RQ.EraseKey(b)) ==> b in buf && typ == Wr
  {
    hide CmdOps, Made;
    var ops := CmdOps(c, typ, buf, a);
    CmdOpsMade(c, typ, buf, a);
    forall i | 0 <= i < |ops|
      ensures RQ.KeyOf(ops[i]) == RQ.DataKey(b) ==> b in buf && (typ == Wr || a[b].valid)
      ensures RQ.KeyOf(ops[i]) == RQ.EraseKey(b) ==> b in buf && typ == Wr
    {
      MadeKey(ops[i], c, typ, buf, a, b);
    }
    if b in buf && (typ == Wr || a[b].valid) {
      CmdOpsCover(c, typ, buf, a, IndexOf(buf, b));
    }
  }

  lemma {:induction false} PickIn(ops: seq<Op>, w: WayId)
    ensures forall op :: op in RQ.Pick(ops, w) ==> op in ops && WayOf(op.addr) == w
    decreases ops
  {
    if ops == [] {
    } else {
      PickIn(ops[..|ops| - 1], w);
    }
  }

  // ---------------------------------------------------------------- keys of a command outside the FIL

  lemma KeyHasRequest(fil: RQ.Fil, k: nat, w: WayId) returns (j: nat)
    requires RQ.Valid(fil) && k < 16384 && fil.keyAt[k] == Some(w)
    ensures j < |fil.queues[w]| && RQ.KeyOf(fil.queues[w][j].op) == k
  {
    assert k in RQ.Keys(fil.queues[w]);
    j :| 0 <= j < |fil.queues[w]| && RQ.Keys(fil.queues[w])[j] == k;
  }

  lemma OutstandingOwner(s: State, b: BufId, k: nat)
    requires Requested(s.fil, s.own, s.loc, s.cmds, s.bufAddr)
    requires (k == RQ.DataKey(b) || k == RQ.EraseKey(b)) && s.fil.keyAt[k].Some?
    ensures s.own[b].Some? && s.loc[s.own[b].value.cmd] == InFil && s.fil.keyAt[k] == Some(WayOf(s.bufAddr[b]))
  {
    var w := s.fil.keyAt[k].value;
    var j := KeyHasRequest(s.fil, k, w);
    assert ReqOk(w, s.fil.queues[w][j].op, s.own, s.loc, s.cmds, s.bufAddr);
  }

  /** The operations of the oldest waiting command have free and different keys. */
  lemma FreshKeys(s: State)
    requires Requested(s.fil, s.own, s.loc, s.cmds, s.bufAddr) && Owned(s.own, s.loc, s.cmds, s.bufPool)
    requires s.q.nandWait != [] && s.loc[s.q.nandWait[0]] == InNandWait
    ensures var c := s.q.nandWait[0]; RQ.Fresh(s.fil.keyAt, CmdOps(c, s.cmds[c].typ, s.cmds[c].buf, s.bufAddr))
  {
    hide Requested, Owned;
    var c := s.q.nandWait[0];
    var cmd := s.cmds[c];
    var ops := CmdOps(c, cmd.typ, cmd.buf, s.bufAddr);
    BufNoDup(s.own, s.loc, s.cmds, s.bufPool, c);
    CmdOpsKeys(c, cmd.typ, cmd.buf, s.bufAddr);
    CmdOpsMade(c, cmd.typ, cmd.buf, s.bufAddr);
    forall i | 0 <= i < |ops|
      ensures s.fil.keyAt[RQ.KeyOf(ops[i])] == None
    {
      assert ops[i] in ops;
      assert ops[i].buf in cmd.buf;
      SlotOwn(s, c, ops[i].buf);
      if s.fil.keyAt[RQ.KeyOf(ops[i])].Some? {
        OutstandingOwner(s, ops[i].buf, RQ.KeyOf(ops[i]));
      }
    }
  }

  lemma RequestedValid(s: State)
    requires Requested(s.fil, s.own, s.loc, s.cmds, s.bufAddr)
    ensures RQ.Valid(s.fil)
  {
  }

  /** Whenever a command waits, the request pool holds enough requests for it: the result of
      new_req needs no check. */
  lemma FanOutNeverStarves(s: State)
    requires Inv(s) && s.q.nandWait != []
    ensures CanFanOut(s)
  {
    hide Placed, CmdsOk, HeadOnly, Counted, Owned, Requested, Paired, OnScript, FlashOk, TableOk, BufsOk, DmaOk,
         SentOk, HistOk;
    var c := s.q.nandWait[0];
    AtHead(s.q, s.loc, InNandWait);
    FreshKeys(s);
    RequestedValid(s);
    RQ.EnqueueAllValid(s.fil, CmdOps(c, s.cmds[c].typ, s.cmds[c].buf, s.bufAddr));
  }

  // ---------------------------------------------------------------- what fanning out does

  ghost predicate FanningOut(s: State, c: CmdId) {
    CanFanOut(s) && c == s.q.nandWait[0] && s.loc[c] == InNandWait
  }

  ghost function FanOps(s: State, c: CmdId): seq<Op> {
    CmdOps(c, s.cmds[c].typ, s.cmds[c].buf, s.bufAddr)
  }

  lemma FanOutFil(s: State, c: CmdId)
    requires FanningOut(s, c)
    requires Requested(s.fil, s.own, s.loc, s.cmds, s.bufAddr) && Owned(s.own, s.loc, s.cmds, s.bufPool)
    ensures RQ.Valid(FanOut(s).fil)
    ensures forall w: WayId :: RQ.Ops(FanOut(s).fil.queues[w]) == RQ.Ops(s.fil.queues[w]) + RQ.Pick(FanOps(s, c), w)
  {
    hide Requested, Owned, RQ.Valid;
    FreshKeys(s);
    RequestedValid(s);
    RQ.EnqueueAllValid(s.fil, FanOps(s, c));
    forall w: WayId
      ensures RQ.Ops(FanOut(s).fil.queues[w]) == RQ.Ops(s.fil.queues[w]) + RQ.Pick(FanOps(s, c), w)
    {
      RQ.EnqueueAllOps(s.fil, FanOps(s, c), w);
    }
  }

  /** The command's own keys were free; now those of its mapped (or written) blocks are taken.
      The keys of other commands are as before. */
  lemma FanOutKey(s: State, c: CmdId, b: BufId)
    requires FanningOut(s, c)
    requires Requested(s.fil, s.own, s.loc, s.cmds, s.bufAddr) && Owned(s.own, s.loc, s.cmds, s.bufPool)
    ensures var k, k' := s.fil.keyAt, FanOut(s).fil.keyAt;
            if b in s.cmds[c].buf then
              && (k'[RQ.DataKey(b)].Some? <==> s.cmds[c].typ == Wr || s.bufAddr[b].valid)
              && (k'[RQ.EraseKey(b)].Some? ==> s.cmds[c].typ == Wr)
            else
              k'[RQ.DataKey(b)] == k[RQ.DataKey(b)] && k'[RQ.EraseKey(b)] == k[RQ.EraseKey(b)]
  {
    hide Requested, Owned, CmdOps, RQ.HasKey;
    var cmd := s.cmds[c];
    CmdOpsKeySet(c, cmd.typ, cmd.buf, s.bufAddr, b);
    RQ.EnqueueAllKeys(s.fil, FanOps(s, c), RQ.DataKey(b));
    RQ.EnqueueAllKeys(s.fil, FanOps(s, c), RQ.EraseKey(b));
    if b in cmd.buf {
      SlotOwn(s, c, b);
      if s.fil.keyAt[RQ.DataKey(b)].Some? {
        OutstandingOwner(s, b, RQ.DataKey(b));
      }
      if s.fil.keyAt[RQ.EraseKey(b)].Some? {
        OutstandingOwner(s, b, RQ.EraseKey(b));
      }
    }
  }

  // ---------------------------------------------------------------- the invariant afterwards

  lemma FanOutCountOwn(s: State, c: CmdId)
    requires FanningOut(s, c) && CmdOk(InNandWait, s.cmds[c], s.note[c], s.hist)
    requires Requested(s.fil, s.own, s.loc, s.cmds, s.bufAddr) && Owned(s.own, s.loc, s.cmds, s.bufPool)
    ensures var t := FanOut(s); var buf := s.cmds[c].buf;
            && t.cmds[c].ndone + Pending(buf, t.fil.keyAt) == t.cmds[c].nblock
            && (t.loc[c] == InFil <==> Pending(buf, t.fil.keyAt) > 0)
            && (t.loc[c] == InFil || (t.loc[c] == InRWait && s.cmds[c].typ == Rd))
  {
    hide Requested, Owned, CmdOps;
    var t, buf := FanOut(s), s.cmds[c].buf;
    forall i | 0 <= i < |buf|
      ensures t.fil.keyAt[RQ.DataKey(buf[i])].Some? <==> s.cmds[c].typ == Wr || s.bufAddr[buf[i]].valid
    {
      FanOutKey(s, c, buf[i]);
    }
    if s.cmds[c].typ == Rd {
      PendingMapped(buf, s.bufAddr, t.fil.keyAt);
    } else {
      PendingAll(buf, t.fil.keyAt);
    }
  }

  lemma CountedAt(s: State, c: CmdId)
    requires Counted(s.loc, s.cmds, s.fil.keyAt) && s.loc[c] == InFil
    ensures s.cmds[c].ndone + Pending(s.cmds[c].buf, s.fil.keyAt) == s.cmds[c].nblock && Pending(s.cmds[c].buf, s.fil.keyAt) > 0
  {
  }

  lemma FanOutCounted(s: State, c: CmdId)
    requires FanningOut(s, c) && CmdOk(InNandWait, s.cmds[c], s.note[c], s.hist)
    requires Requested(s.fil, s.own, s.loc, s.cmds, s.bufAddr) && Owned(s.own, s.loc, s.cmds, s.bufPool)
    requires Counted(s.loc, s.cmds, s.fil.keyAt)
    ensures var t := FanOut(s); Counted(t.loc, t.cmds, t.fil.keyAt)
  {
    hide Requested, Owned, CmdOps, CmdOk;
    var t := FanOut(s);
    FanOutCountOwn(s, c);
    forall x: CmdId | t.loc[x] == InFil && x != c
      ensures t.cmds[x].ndone + Pending(t.cmds[x].buf, t.fil.keyAt) == t.cmds[x].nblock && Pending(t.cmds[x].buf, t.fil.keyAt) > 0
    {
      var buf := s.cmds[x].buf;
      forall i | 0 <= i < |buf|
        ensures t.fil.keyAt[RQ.DataKey(buf[i])] == s.fil.keyAt[RQ.DataKey(buf[i])]
      {
        SlotOwn(s, x, buf[i]);
        if buf[i] in s.cmds[c].buf {
          SlotOwn(s, c, buf[i]);
        }
        FanOutKey(s, c, buf[i]);
      }
      PendingSame(buf, s.fil.keyAt, t.fil.keyAt);
    }
  }

  lemma FanOpsOk(s: State, c: CmdId, op: Op)
    requires FanningOut(s, c) && CmdOk(InNandWait, s.cmds[c], s.note[c], s.hist) && op in FanOps(s, c)
    requires Requested(s.fil, s.own, s.loc, s.cmds, s.bufAddr) && Owned(s.own, s.loc, s.cmds, s.bufPool) && BufsOk(s)
    ensures var t := FanOut(s); ReqOk(WayOf(op.addr), op, t.own, t.loc, t.cmds, t.bufAddr)
  {
    hide Requested, Owned, CmdOps, BufsOk, AddrOf;
    var cmd, t := s.cmds[c], FanOut(s);
    CmdOpsMade(c, cmd.typ, cmd.buf, s.bufAddr);
    var i: nat :| MadeFor(op, c, cmd.typ, cmd.buf, s.bufAddr, i);
    assert op.buf in cmd.buf;
    SlotOwn(s, c, op.buf);
    BufsAt(s, op.buf);
    if cmd.typ == Wr {
      AddrOfFacts(LogIndex(op.addr));
    }
    FanOutCountOwn(s, c);
    FanOutKey(s, c, op.buf);
    PendingNone(cmd.buf, t.fil.keyAt);
    assert t.fil.keyAt[RQ.DataKey(cmd.buf[i])].Some?;
  }

  lemma ReqAt(s: State, w: WayId, k: nat)
    requires Requested(s.fil, s.own, s.loc, s.cmds, s.bufAddr) && k < |s.fil.queues[w]|
    ensures ReqOk(w, s.fil.queues[w][k].op, s.own, s.loc, s.cmds, s.bufAddr)
  {
  }

  lemma FanOutRequested(s: State, c: CmdId)
    requires FanningOut(s, c) && CmdOk(InNandWait, s.cmds[c], s.note[c], s.hist)
    requires Requested(s.fil, s.own, s.loc, s.cmds, s.bufAddr) && Owned(s.own, s.loc, s.cmds, s.bufPool) && BufsOk(s)
    ensures var t := FanOut(s); Requested(t.fil, t.own, t.loc, t.cmds, t.bufAddr)
  {
    hide Owned, CmdOps, BufsOk, CmdOk, Requested, RQ.Valid;
    var t := FanOut(s);
    FanOutFil(s, c);
    forall w: WayId, k: nat | k < |t.fil.queues[w]|
      ensures ReqOk(w, t.fil.queues[w][k].op, t.own, t.loc, t.cmds, t.bufAddr)
    {
      var op := t.fil.queues[w][k].op;
      assert op == RQ.Ops(t.fil.queues[w])[k];
      if k < |s.fil.queues[w]| {
        assert op == RQ.Ops(s.fil.queues[w])[k];
        ReqAt(s, w, k);
      } else {
        var j := k - |s.fil.queues[w]|;
        assert op == RQ.Pick(FanOps(s, c), w)[j];
        PickIn(FanOps(s, c), w);
        FanOpsOk(s, c, op);
      }
    }
    RequestedFrom(t);
  }

  lemma RequestedFrom(t: State)
    requires RQ.Valid(t.fil)
    requires forall w: WayId, k: nat :: k < |t.fil.queues[w]| ==> ReqOk(w, t.fil.queues[w][k].op, t.own, t.loc, t.cmds, t.bufAddr)
    ensures Requested(t.fil, t.own, t.loc, t.cmds, t.bufAddr)
  {
  }

  lemma FanOutPaired(s: State, c: CmdId)
    requires FanningOut(s, c) && Paired(s.fil.keyAt)
    requires Requested(s.fil, s.own, s.loc, s.cmds, s.bufAddr) && Owned(s.own, s.loc, s.cmds, s.bufPool)
    ensures Paired(FanOut(s).fil.keyAt)
  {
    hide Requested, Owned, CmdOps;
    forall b: BufId
      ensures FanOut(s).fil.keyAt[RQ.EraseKey(b)].Some? ==> FanOut(s).fil.keyAt[RQ.DataKey(b)].Some?
    {
      FanOutKey(s, c, b);
    }
  }

  /** Moving operations from nand_wait_q to the lists changes nothing about what a way has to do. */
  lemma FanOutScript(s: State, c: CmdId)
    requires FanningOut(s, c) && Placed(s.q, s.loc)
    requires Requested(s.fil, s.own, s.loc, s.cmds, s.bufAddr) && Owned(s.own, s.loc, s.cmds, s.bufPool)
    requires OnScript(s.fil, AllOps(s.q.nandWait, s.cmds, s.bufAddr), s.pos, |s.log|)
    ensures var t := FanOut(s); OnScript(t.fil, AllOps(t.q.nandWait, t.cmds, t.bufAddr), t.pos, |t.log|)
  {
    hide Requested, Owned, CmdOps, Placed, Exec, EndPos, WritesOn, RQ.Pick, RQ.Ops, RQ.Valid;
    var t := FanOut(s);
    FanOutFil(s, c);
    var rest := AllOps(s.q.nandWait[1..], s.cmds, s.bufAddr);
    assert AllOps(s.q.nandWait, s.cmds, s.bufAddr) == FanOps(s, c) + rest;
    AllOpsSame(s.q.nandWait[1..], s.cmds, t.cmds, s.bufAddr, s.bufAddr);
    forall w: WayId
      ensures Todo(t.fil, rest, w) == Todo(s.fil, FanOps(s, c) + rest, w)
    {
      RQ.PickAppend(FanOps(s, c), rest, w);
    }
  }

  lemma FanOutBufs(s: State, c: CmdId)
    requires FanningOut(s, c) && CmdOk(InNandWait, s.cmds[c], s.note[c], s.hist)
    requires Requested(s.fil, s.own, s.loc, s.cmds, s.bufAddr) && Owned(s.own, s.loc, s.cmds, s.bufPool) && BufsOk(s)
    ensures BufsOk(FanOut(s))
  {
    hide Requested, Owned, CmdOps, BufsOk, AddrOf;
    var t := FanOut(s);
    FanOutCountOwn(s, c);
    PendingNone(s.cmds[c].buf, t.fil.keyAt);
    forall b: BufId
      ensures BufOkAt(t, b)
    {
      BufsAt(s, b);
      if s.own[b].Some? {
        OwnSlot(s, b);
        FanOutKey(s, c, b);
        if b in s.cmds[c].buf {
          SlotOwn(s, c, b);
        }
      }
    }
    BufsFrom(t);
  }

  lemma BufsFrom(t: State)
    requires forall b: BufId :: BufOkAt(t, b)
    ensures BufsOk(t)
  {
  }

  lemma FanOutKeeps(s: State)
    requires Inv(s) && CanFanOut(s)
    ensures Inv(FanOut(s))
  {
    hide Placed, CmdsOk, HeadOnly, Counted, Owned, Requested, Paired, OnScript, FlashOk, TableOk, BufsOk, DmaOk,
         SentOk, HistOk, CmdOps, AllOps;
    var c, t := s.q.nandWait[0], FanOut(s);
    AtHead(s.q, s.loc, InNandWait);
    CmdOkAt(s, c);
    FanOutCountOwn(s, c);
    Moved(s.q, t.q, s.loc, c, InNandWait, t.loc[c]);
    CmdsOkStep(s, t, c);
    HeadOnlyStep(s, t, c);
    FanOutCounted(s, c);
    OwnedStep(s, t, c);
    FanOutRequested(s, c);
    FanOutPaired(s, c);
    FanOutScript(s, c);
    FanOutBufs(s, c);
    DmaStep(s, t, c);
  }
}
