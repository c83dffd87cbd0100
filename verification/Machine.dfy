/** Every run of the pipeline: the invariant, and what it says to a user of the disk. */
module Machine {
  import opened Base
  import opened NandAddress
  import opened Model
  import opened WayScript
  import RQ = RequestQueues
  import opened Pipeline
  import opened Invariant
  import opened Preservation
  import opened FtlPreservation
  import opened FilFanOut
  import opened FilFinish

  lemma StartLists()
    ensures Placed(StartQueues(), seq(512, _ => InPool))
    ensures Lists(StartBufs(), Start().own, None)
  {
    UpTo(StartQueues().pool);
    UpTo(StartBufs());
  }

  lemma StartRequests()
    ensures RQ.Valid(StartFil())
  {
    var f := StartFil();
    UpTo(f.reqPool);
    ListSize(f.reqPool, RQ.FreeKeys(f.keyAt));
    forall w: WayId
      ensures Lists(RQ.Ids(f.queues[w]), f.idAt, Some(w)) && Lists(RQ.Keys(f.queues[w]), f.keyAt, Some(w))
    {
      assert RQ.Ids(f.queues[w]) == [] && RQ.Keys(f.queues[w]) == [];
    }
  }

  lemma StartScript()
    ensures var s := Start(); OnScript(s.fil, [], s.pos, 0)
  {
    var s := Start();
    forall w: WayId
      ensures Exec(s.pos[w], Todo(s.fil, [], w)) == Some(EndPos(WritesOn(w, 0)))
    {
      assert Todo(s.fil, [], w) == [];
    }
  }

  lemma StartCommands()
    ensures var s := Start(); CmdsOk(s.loc, s.cmds, s.note, s.hist) && HeadOnly(s.q.init, s.cmds)
    ensures var s := Start(); Counted(s.loc, s.cmds, s.fil.keyAt) && Paired(s.fil.keyAt)
  {
  }

  lemma StartBuffers()
    ensures var s := Start(); Owned(s.own, s.loc, s.cmds, s.bufPool) && BufsOk(s) && DmaOk(s.rx, s.tx, s.own, s.loc)
  {
    StartLists();
  }

  lemma StartMedium()
    ensures var s := Start(); FlashOk(s.flash, s.pos, s.log) && TableOk(s.l2p, s.log, s.hist)
  {
    var s := Start();
    forall x: nat | x < 16777216
      ensures EntryOk(s.l2p[x], Lookup(Replay(s.hist), x), s.log)
    {
      assert s.l2p[x] == ZERO_ADDR;
    }
  }

  lemma StartRequested()
    ensures var s := Start(); Requested(s.fil, s.own, s.loc, s.cmds, s.bufAddr)
  {
    StartRequests();
  }

  lemma StartHolds()
    ensures Inv(Start())
  {
    StartLists();
    StartCommands();
    StartBuffers();
    StartMedium();
    StartRequested();
    StartScript();
    hide Placed, CmdsOk, HeadOnly, Counted, Owned, Requested, Paired, OnScript, FlashOk, TableOk, BufsOk, DmaOk;
  }

  // ---------------------------------------------------------------- runs

  lemma StepKeeps(s: State, st: Step)
    requires Inv(s) && Enabled(s, st)
    ensures Inv(Do(s, st))
  {
    hide Inv;
    match st
    case FetchStep(h) => FetchKeeps(s, h);
    case GrabStep => GrabKeeps(s);
    case PassInitStep => PassInitKeeps(s);
    case IssueRxStep => IssueRxKeeps(s);
    case IssueTxStep => IssueTxKeeps(s);
    case PassWrittenStep => PassWrittenKeeps(s);
    case RetireReadStep => RetireReadKeeps(s);
    case RetireWriteStep => RetireWriteKeeps(s);
    case RxStep(b) => RxArriveKeeps(s, b);
    case TxStep(b) => TxLeaveKeeps(s, b);
    case MapStep => MapKeeps(s);
    case FanOutStep => FanOutKeeps(s);
    case FinishStep(w) => FinishKeeps(s, w);
  }

  lemma MapKeeps(s: State)
    requires Inv(s) && CanMap(s)
    ensures Inv(MapCmd(s))
  {
    hide Inv, MapCmd;
    if s.cmds[s.q.ftlWait[0]].typ == Rd {
      MapReadKeeps(s);
    } else {
      MapWriteKeeps(s);
    }
  }

  /** states is a run of the machine taking the given steps, in any interleaving. */
  ghost predicate IsRun(states: seq<State>, steps: seq<Step>) {
    && |states| == |steps| + 1 && states[0] == Start()
    && forall i :: 0 <= i < |steps| ==> Enabled(states[i], steps[i]) && states[i + 1] == Do(states[i], steps[i])
  }

  /** Every state of every run satisfies the invariant. */
  lemma {:induction false} EveryRun(states: seq<State>, steps: seq<Step>, i: nat)
    requires IsRun(states, steps) && i < |states|
    ensures Inv(states[i])
  {
    hide Inv;
    if i == 0 {
      StartHolds();
    } else {
      EveryRun(states, steps, i - 1);
      StepKeeps(states[i - 1], steps[i - 1]);
    }
  }
}
