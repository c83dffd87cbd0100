/** Which write each entry of the mapping table comes from, told from the host's writes alone; and
    from it, exactly when the table points into a block that is about to be erased. */
module TableHistory {
  import opened Base
  import opened NandAddress
  import opened Model
  import opened WayScript
  import RQ = RequestQueues
  import opened Pipeline
  import opened Invariant
  import opened Preservation
  import opened FtlPreservation
  import opened FilFinish
  import opened Machine
  import opened Theorems

  /** How many blocks the writes of a history store, and so which page of the log the next one gets. */
  function Written(hist: seq<Commit>): nat {
    if hist == [] then 0
    else
      var e := hist[|hist| - 1];
      Written(hist[..|hist| - 1]) + (if e.Wrote? then |e.blocks| else 0)
  }

  /** The position in the log of the last block written to address x. */
  function Located(hist: seq<Commit>, x: nat): Option<nat> {
    if hist == [] then None
    else
      var front, e := hist[..|hist| - 1], hist[|hist| - 1];
      if Covers(e, x) then Some(Written(front) + (x - e.lba)) else Located(front, x)
  }

  /** Block i of write k is block Written(hist[..k]) + i of the log. */
  lemma {:induction false} LocatedIsLastWrite(hist: seq<Commit>, x: nat, k: nat)
    requires IsLastWrite(hist, k, x)
    ensures Located(hist, x) == Some(Written(hist[..k]) + (x - hist[k].lba))
    decreases |hist|
  {
    var n := |hist| - 1;
    if k == n {
      assert hist[..k] == hist[..n];
    } else {
      assert IsLastWrite(hist[..n], k, x);
      LocatedIsLastWrite(hist[..n], x, k);
      assert hist[..n][..k] == hist[..k];
    }
  }

  /** An address that is located has been written. */
  lemma {:induction false} LocatedWritten(hist: seq<Commit>, x: nat) returns (k: nat)
    requires Located(hist, x).Some?
    ensures IsLastWrite(hist, k, x)
    decreases |hist|
  {
    var n := |hist| - 1;
    if Covers(hist[n], x) {
      k := n;
    } else {
      k := LocatedWritten(hist[..n], x);
    }
  }

  predicate EntryFrom(a: NandAddr, p: Option<nat>, n: nat) {
    if p.Some? then p.value < n && n < WRITE_LIMIT && a == AddrOf(p.value) else !a.valid
  }

  ghost predicate InRange(hist: seq<Commit>) {
    forall k :: 0 <= k < |hist| && hist[k].Wrote? ==> hist[k].lba + |hist[k].blocks| <= HOST_BLOCK_CNT
  }

  /** Every entry of the table is the address of the log position of the last block written there. */
  ghost predicate Traced(s: State) {
    && |s.log| == Written(s.hist) && InRange(s.hist)
    && forall x: nat :: x < 16777216 ==> EntryFrom(s.l2p[x], Located(s.hist, x), |s.log|)
  }

  // ---------------------------------------------------------------- every run

  lemma MapTraces(s: State)
    requires Traced(s) && CanMap(s) && Mapping(s, s.cmds[s.q.ftlWait[0]].typ)
    ensures Traced(MapCmd(s))
  {
    hide AddrOf, Replay, Digits, Given, NewAddrs;
    var t, cmd := MapCmd(s), s.cmds[s.q.ftlWait[0]];
    assert t.hist[..|t.hist| - 1] == s.hist;
    forall x: nat | x < 16777216
      ensures EntryFrom(t.l2p[x], Located(t.hist, x), |t.log|)
    {
      assert EntryFrom(s.l2p[x], Located(s.hist, x), |s.log|);
      if cmd.typ == Wr {
        assert t.l2p[x] == RemappedEntry(s.l2p, cmd.lba, |cmd.buf|, |s.log|, x);
      }
    }
  }

  lemma HeadMapping(s: State)
    requires Inv(s) && CanMap(s)
    ensures Mapping(s, s.cmds[s.q.ftlWait[0]].typ)
  {
    hide HeadOnly, Counted, Owned, Requested, Paired, OnScript, FlashOk, TableOk, BufsOk, DmaOk, SentOk, HistOk;
    AtHead(s.q, s.loc, InFtlWait);
    CmdOkAt(s, s.q.ftlWait[0]);
  }

  /** Only the mapping step touches the table, the log or the commit history. */
  lemma OthersLeave(s: State, st: Step)
    requires Enabled(s, st) && st != MapStep
    ensures var t := Do(s, st); t.l2p == s.l2p && t.log == s.log && t.hist == s.hist
  {
    hide RQ.EnqueueAll, CmdOps, Unmapped, Medium, Memory, Disciplined, Uids, EnteredUids, Release;
  }

  lemma StepTraces(s: State, st: Step)
    requires Inv(s) && Traced(s) && Enabled(s, st)
    ensures Traced(Do(s, st))
  {
    hide Inv, MapCmd;
    if st == MapStep {
      HeadMapping(s);
      MapTraces(s);
    } else {
      OthersLeave(s, st);
    }
  }

  lemma StartTraced()
    ensures Traced(Start())
  {
  }

  lemma {:induction false} EveryRunTraced(states: seq<State>, steps: seq<Step>, i: nat)
    requires IsRun(states, steps) && i < |states|
    ensures Traced(states[i])
  {
    hide Inv, Traced, Enabled, Do, Start;
    if i == 0 {
      StartTraced();
    } else {
      EveryRunTraced(states, steps, i - 1);
      EveryRun(states, steps, i - 1);
      StepTraces(states[i - 1], steps[i - 1]);
    }
  }

  // ---------------------------------------------------------------- erases

  /** An entry of the table that leads into block b of way w. */
  predicate PointsInto(a: NandAddr, w: WayId, b: nat) {
    a.valid && WayOf(a) == w && a.block == b
  }

  /** Counting the blocks written, block i of write k of the history is one of the 128 that go to
      block b of way w: every 64th, and 8192 of them from block to block. */
  predicate GoesInto(hist: seq<Commit>, k: nat, i: nat, w: WayId, b: nat) {
    && k < |hist| && hist[k].Wrote? && i < |hist[k].blocks|
    && var p := Written(hist[..k]) + i; p % 64 == w && FIRST_BLOCK + p / 8192 == b
  }

  /** A later write of the history covers the address of block i of write k. */
  ghost predicate Overwritten(hist: seq<Commit>, k: nat, i: nat)
    requires k < |hist| && hist[k].Wrote?
  {
    exists j :: k < j < |hist| && Covers(hist[j], hist[k].lba + i)
  }

  lemma AddrInto(p: nat, w: WayId, b: nat)
    requires p < WRITE_LIMIT
    ensures PointsInto(AddrOf(p), w, b) <==> p % 64 == w && FIRST_BLOCK + p / 8192 == b
  {
    AddrOfFacts(p);
  }

  /** A block that went into (w, b) and has not been overwritten keeps the table pointing there. */
  lemma StillPoints(s: State, k: nat, i: nat, w: WayId, b: nat)
    requires Traced(s) && GoesInto(s.hist, k, i, w, b) && !Overwritten(s.hist, k, i)
    ensures s.hist[k].lba + i < 16777216 && PointsInto(s.l2p[s.hist[k].lba + i], w, b)
  {
    hide AddrOf, PointsInto;
    var x := s.hist[k].lba + i;
    assert IsLastWrite(s.hist, k, x);
    LocatedIsLastWrite(s.hist, x, k);
    assert EntryFrom(s.l2p[x], Located(s.hist, x), |s.log|);
    AddrInto(Located(s.hist, x).value, w, b);
  }

  /** An entry that leads into (w, b) comes from a block that went there and has not been overwritten. */
  lemma PointsStill(s: State, x: nat, w: WayId, b: nat) returns (k: nat, i: nat)
    requires Traced(s) && x < 16777216 && PointsInto(s.l2p[x], w, b)
    ensures GoesInto(s.hist, k, i, w, b) && !Overwritten(s.hist, k, i)
  {
    hide AddrOf;
    assert EntryFrom(s.l2p[x], Located(s.hist, x), |s.log|);
    k := LocatedWritten(s.hist, x);
    LocatedIsLastWrite(s.hist, x, k);
    i := x - s.hist[k].lba;
    AddrInto(Located(s.hist, x).value, w, b);
  }

  /** The table points into no part of block b of way w. */
  ghost predicate NotPointedInto(l2p: L2p, w: WayId, b: nat) {
    forall x: nat :: x < 16777216 ==> !PointsInto(l2p[x], w, b)
  }

  /** When a way is about to erase a block, the table does not point into it if and only if every
      block written by the host so far that goes there has been overwritten by a later write. The
      condition is on the sequence of the host's writes alone: their addresses and lengths. */
  lemma ErasedUnmappedIff(states: seq<State>, steps: seq<Step>, n: nat, w: WayId)
    requires IsRun(states, steps) && n < |states|
    requires states[n].fil.queues[w] != [] && states[n].fil.queues[w][0].op.kind == EraseOp
    ensures var s := states[n]; var b := s.fil.queues[w][0].op.addr.block;
            NotPointedInto(s.l2p, w, b) <==>
            forall k: nat, i: nat :: GoesInto(s.hist, k, i, w, b) ==> Overwritten(s.hist, k, i)
  {
    hide IsRun, Inv, Traced, PointsInto, Overwritten;
    EveryRunTraced(states, steps, n);
    UnmappedIff(states[n], w, states[n].fil.queues[w][0].op.addr.block);
  }

  lemma UnmappedIff(s: State, w: WayId, b: nat)
    requires Traced(s)
    ensures NotPointedInto(s.l2p, w, b) <==> forall k: nat, i: nat :: GoesInto(s.hist, k, i, w, b) ==> Overwritten(s.hist, k, i)
  {
    hide Traced, PointsInto, Overwritten;
    if NotPointedInto(s.l2p, w, b) {
      forall k: nat, i: nat | GoesInto(s.hist, k, i, w, b)
        ensures Overwritten(s.hist, k, i)
      {
        GoesIntoWrite(s.hist, k, i, w, b);
        if !Overwritten(s.hist, k, i) {
          StillPoints(s, k, i, w, b);
        }
      }
    } else {
      var x: nat :| x < 16777216 && PointsInto(s.l2p[x], w, b);
      var k, i := PointsStill(s, x, w, b);
    }
  }

  lemma GoesIntoWrite(hist: seq<Commit>, k: nat, i: nat, w: WayId, b: nat)
    requires GoesInto(hist, k, i, w, b)
    ensures k < |hist| && hist[k].Wrote?
  {
  }

  /** Which write of the history a position of the log belongs to. */
  lemma {:induction false} WriteAt(hist: seq<Commit>, p: nat) returns (k: nat, i: nat)
    requires p < Written(hist)
    ensures k < |hist| && hist[k].Wrote? && i < |hist[k].blocks| && Written(hist[..k]) + i == p
    decreases |hist|
  {
    var n := |hist| - 1;
    if p < Written(hist[..n]) {
      k, i := WriteAt(hist[..n], p);
      assert hist[..n][..k] == hist[..k];
    } else {
      k, i := n, p - Written(hist[..n]);
    }
  }

  /** The block write an erase is made for goes into the block that is erased, so as long as the host
      has not written that address again the erase finds the table pointing into its block. */
  lemma EraseMadeFor(s: State, w: WayId) returns (k: nat, i: nat)
    requires Inv(s) && Traced(s)
    requires s.fil.queues[w] != [] && s.fil.queues[w][0].op.kind == EraseOp
    ensures var b := s.fil.queues[w][0].op.addr.block;
            && GoesInto(s.hist, k, i, w, b)
            && (!Overwritten(s.hist, k, i) ==> !NotPointedInto(s.l2p, w, b))
  {
    hide Inv, Traced, Overwritten, AddrOf, LogIndex;
    var a := s.fil.queues[w][0].op.addr;
    RequestHanded(s, w, 0);
    TracedSize(s);
    k, i := WriteAt(s.hist, LogIndex(a));
    AddrOfFacts(LogIndex(a));
    AddrInto(LogIndex(a), w, a.block);
    if !Overwritten(s.hist, k, i) {
      StillPoints(s, k, i, w, a.block);
    }
  }

  lemma TracedSize(s: State)
    requires Traced(s)
    ensures |s.log| == Written(s.hist)
  {
  }
}
