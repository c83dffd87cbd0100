/** The host's real-time order, end to end: what may have been complete to the host when a command
    was fetched takes effect before that command, in every run of the main loop. */
module HostOrder {
  import opened Base
  import opened NandAddress
  import opened Model
  import opened WayScript
  import RQ = RequestQueues
  import opened Pipeline
  import opened Invariant
  import opened Preservation
  import opened Machine
  import opened Schedule
  import opened RealTimeOrder
  import opened RoundSteps

  /** Serial number v has been handed out, and whatever carries it was fetched after B. */
  ghost predicate Recorded(s: State, v: nat, B: set<nat>) {
    && v < s.uid
    && (forall c: CmdId :: Unentered(s.loc[c]) && s.note[c].uid == v ==> s.note[c].before == B)
    && (forall k :: 0 <= k < |s.entered| && s.entered[k].uid == v ==> s.entered[k].before == B)
  }

  /** A step that fetches nothing and enters at most one command, with what it carries. */
  ghost predicate Carries(s: State, t: State) {
    && t.uid == s.uid
    && (forall c: CmdId :: t.note[c].uid == s.note[c].uid && t.note[c].before == s.note[c].before)
    && (forall c: CmdId :: Unentered(t.loc[c]) ==> Unentered(s.loc[c]))
    && (t.entered == s.entered ||
        exists c: CmdId :: Unentered(s.loc[c]) && t.entered == s.entered + [Entry(s.note[c].uid, s.note[c].before)])
  }

  lemma CarriesRecorded(s: State, t: State, v: nat, B: set<nat>)
    requires Recorded(s, v, B) && Carries(s, t)
    ensures Recorded(t, v, B)
  {
  }

  lemma FetchRecorded(s: State, h: HostCmd, v: nat, B: set<nat>)
    requires CanFetch(s) && Recorded(s, v, B)
    ensures Recorded(Fetch(s, h), v, B)
  {
    hide EnteredUids, Uids;
  }

  lemma EnterCarries(s: State, st: Step)
    requires Inv(s) && Enabled(s, st) && (st == PassInitStep || st == PassWrittenStep)
    ensures Carries(s, Do(s, st))
  {
    hide CmdsOk, HeadOnly, Counted, Owned, Requested, Paired, OnScript, FlashOk, TableOk, BufsOk, DmaOk, SentOk, HistOk;
    var l := if st == PassInitStep then InInit else InWIssue;
    AtHead(s.q, s.loc, l);
    var c := QueueAt(s.q, l)[0];
    assert Unentered(s.loc[c]);
  }

  lemma HilCarries(s: State, st: Step)
    requires Inv(s) && Enabled(s, st)
    requires st.GrabStep? || st.IssueRxStep? || st.IssueTxStep? || st.RetireReadStep? || st.RetireWriteStep? || st.RxStep? || st.TxStep?
    ensures Carries(s, Do(s, st))
  {
    hide CmdsOk, HeadOnly, Counted, Owned, Requested, Paired, OnScript, FlashOk, TableOk, BufsOk, DmaOk, SentOk, HistOk, Release;
    if st == IssueRxStep {
      AtHead(s.q, s.loc, InWWait);
    }
  }

  lemma BackCarries(s: State, st: Step)
    requires Enabled(s, st) && (st.MapStep? || st.FanOutStep? || st.FinishStep?)
    ensures Carries(s, Do(s, st))
  {
    hide Carries, MapCmd, FanOut, Finish, CanMap, CanFanOut, CanFinish;
    match st
    case MapStep => MapCarries(s);
    case FanOutStep => FanOutCarries(s);
    case FinishStep(w) => FinishCarries(s, w);
  }

  lemma MapCarries(s: State)
    requires CanMap(s)
    ensures Carries(s, MapCmd(s))
  {
    hide Replay, Given, Remapped, NewAddrs, Digits;
  }

  lemma FanOutCarries(s: State)
    requires CanFanOut(s)
    ensures Carries(s, FanOut(s))
  {
    hide RQ.EnqueueAll, CmdOps, Unmapped;
  }

  lemma FinishCarries(s: State, w: WayId)
    requires CanFinish(s, w)
    ensures Carries(s, Finish(s, w))
  {
    hide RQ.Dequeue, Medium, Memory, Disciplined;
  }

  lemma StepRecorded(s: State, st: Step, v: nat, B: set<nat>)
    requires Inv(s) && Enabled(s, st) && Recorded(s, v, B)
    ensures Recorded(Do(s, st), v, B)
  {
    hide Inv, Recorded, Carries;
    if st.FetchStep? {
      hide Fetch;
      FetchRecorded(s, st.h, v, B);
    } else {
      hide Do, Enabled;
      if st == PassInitStep || st == PassWrittenStep {
        EnterCarries(s, st);
      } else if st.MapStep? || st.FanOutStep? || st.FinishStep? {
        BackCarries(s, st);
      } else {
        HilCarries(s, st);
      }
      CarriesRecorded(s, Do(s, st), v, B);
    }
  }

  lemma {:induction false} PathRecorded(s: State, steps: seq<Step>, t: State, v: nat, B: set<nat>)
    requires Inv(s) && Path(s, steps, t) && Recorded(s, v, B)
    ensures Recorded(t, v, B)
    decreases steps
  {
    hide Inv, Do, Enabled, Recorded;
    if steps == [] {
    } else {
      StepKeeps(s, steps[0]);
      StepRecorded(s, steps[0], v, B);
      PathRecorded(Do(s, steps[0]), steps[1..], t, v, B);
    }
  }

  // ---------------------------------------------------------------- the order

  /** The state in which round r fetches. */
  ghost function AtFetch(envs: seq<Env>, r: nat): State
    requires r < |envs|
  {
    Transfers(Rounds(envs[..r]), envs[r].beforeHil)
  }

  /** The serial numbers of the writes whose receive DMA has been started and of everything that has
      entered ftl_wait_q: all the host may have seen completed. */
  ghost function PossiblyComplete(s: State): set<nat> {
    EnteredUids(s.entered) + Uids(s.q.wIssue, s.note)
  }

  lemma FetchRecords(s: State, h: HostCmd)
    requires CanFetch(s) && Serial(s) && Placed(s.q, s.loc)
    ensures Recorded(Fetch(s, h), s.uid, PossiblyComplete(s))
  {
    hide EnteredUids, Uids;
    AtHead(s.q, s.loc, InPool);
  }

  lemma AtFetchOrdered(envs: seq<Env>, r: nat)
    requires ValidEnvs(envs) && r < |envs|
    ensures Inv(AtFetch(envs, r)) && Serial(AtFetch(envs, r)) && Placed(AtFetch(envs, r).q, AtFetch(envs, r).loc)
  {
    hide Inv, Rounds, Transfers, IssuedInOrder, CommitsInOrder, EnteredInOrder, Bounded;
    EveryRound(envs[..r]);
    EveryRoundOrdered(envs[..r]);
    TransfersKeep(Rounds(envs[..r]), envs[r].beforeHil);
    TransfersOrder(Rounds(envs[..r]), envs[r].beforeHil);
    InvPlaced(AtFetch(envs, r));
  }

  /** The command fetched in round r carries its record for ever. */
  lemma RecordedEver(envs: seq<Env>, r: nat)
    requires ValidEnvs(envs) && r < |envs| && envs[r].arrival.Some? && CanFetch(AtFetch(envs, r))
    ensures Recorded(Rounds(envs), AtFetch(envs, r).uid, PossiblyComplete(AtFetch(envs, r)))
  {
    hide Inv, Serial, Recorded, PossiblyComplete, CanFetch, Fetch, HilRest, HilRun, Transfers, Path, Do, Enabled, FilRun, FtlRun,
         ValidHostCmd;
    var e, s := envs[r], AtFetch(envs, r);
    var h := e.arrival.value;
    AtFetchOrdered(envs, r);
    FetchRecords(s, h);
    var t := Fetch(s, h);
    FetchIsStep(s, h);
    StepKeeps(s, FetchStep(h));
    var a := HilRestSteps(t);
    HilRunIs(s, e.arrival);
    var s0 := Rounds(envs[..r]);
    var b := RestOfRound(s0, e);
    PathAppend(t, a, AfterHil(s0, e), b, Round(s0, e));
    NextRound(envs, r);
    var c := LaterRounds(envs, r + 1);
    PathAppend(t, a + b, Rounds(envs[..r + 1]), c, Rounds(envs));
    PathRecorded(t, a + b + c, Rounds(envs), s.uid, PossiblyComplete(s));
  }

  lemma NextRound(envs: seq<Env>, r: nat)
    requires r < |envs|
    ensures Rounds(envs[..r + 1]) == Round(Rounds(envs[..r]), envs[r])
  {
    hide Round;
    assert envs[..r + 1][..r] == envs[..r];
  }

  /** The host's order is kept: if u may have been complete to the host when round r fetched a
      command, then in every continuation u takes effect before that command does. */
  lemma HostOrderKept(envs: seq<Env>, r: nat, u: nat, k: nat) returns (j: nat)
    requires ValidEnvs(envs) && r < |envs| && envs[r].arrival.Some? && CanFetch(AtFetch(envs, r))
    requires u in PossiblyComplete(AtFetch(envs, r))
    requires k < |Rounds(envs).hist| && Rounds(envs).hist[k].uid == AtFetch(envs, r).uid
    ensures j < k && Rounds(envs).hist[j].uid == u
  {
    hide Rounds, AtFetch, PossiblyComplete, Replay;
    RecordedEver(envs, r);
    Linearizable(envs, k);
    var s := Rounds(envs);
    assert s.entered[k].before == PossiblyComplete(AtFetch(envs, r));
    j :| 0 <= j < k && s.hist[j].uid == u;
  }
}
