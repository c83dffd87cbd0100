/** Completion over whole runs: every command the host's fetch creates is appended to the two
    completion queues together exactly once, however the steps interleave. */
module Completion {
  import opened Base
  import opened NandAddress
  import opened Model
  import opened WayScript
  import RQ = RequestQueues
  import opened Pipeline
  import opened Invariant
  import opened Preservation
  import opened FilFanOut
  import opened FilFinish
  import opened Machine
  import opened Theorems
  import opened Schedule
  import opened RoundSteps

  /** Where a command is until it is completed. */
  predicate OpenLoc(l: Loc) {
    l.InInit? || l.InWWait? || l.InWIssue? || l.InFtlWait? || l.InNandWait? || l.InFil?
  }

  /** Live commands carry different serial numbers, all handed out already. */
  ghost predicate Numbered(s: State) {
    && (forall c: CmdId :: s.loc[c] != InPool ==> s.note[c].uid < s.uid)
    && (forall c: CmdId, x: CmdId :: s.loc[c] != InPool && s.loc[x] != InPool && c != x ==> s.note[c].uid != s.note[x].uid)
  }

  /** The command with serial number u has been fetched and is not completed. */
  ghost predicate Open(s: State, u: nat) {
    exists c: CmdId :: OpenLoc(s.loc[c]) && s.note[c].uid == u
  }

  /** The command by which read_dma_wait_q or done_q has grown from s to t. */
  function Appended(s: State, t: State): Option<CmdId> {
    if |t.q.rWait| > |s.q.rWait| then Some(t.q.rWait[|t.q.rWait| - 1])
    else if |t.q.done| > |s.q.done| then Some(t.q.done[|t.q.done| - 1])
    else None
  }

  predicate Completes(s: State, t: State, u: nat) {
    Appended(s, t).Some? && s.note[Appended(s, t).value].uid == u
  }

  /** How often the command with serial number u has been appended along a run. */
  function Completions(states: seq<State>, u: nat): nat {
    if |states| <= 1 then 0
    else
      var n := |states| - 1;
      Completions(states[..n], u) + (if Completes(states[n - 1], states[n], u) then 1 else 0)
  }

  function One(b: bool): nat {
    if b then 1 else 0
  }

  ghost predicate Closed(s: State, u: nat) {
    u < s.uid && !Open(s, u)
  }

  /** What one step does to the account of u. */
  ghost predicate Counts(s: State, t: State, u: nat) {
    Numbered(t) && One(Closed(t, u)) == One(Closed(s, u)) + One(Completes(s, t, u))
  }

  /** A step that moves at most command c, keeping serial numbers, and appends it to a completion
      queue exactly when it leaves the open stages. */
  ghost predicate MovesOnly(s: State, t: State, c: CmdId) {
    && s.loc[c] != InPool && t.uid == s.uid
    && (forall x: CmdId :: t.note[x].uid == s.note[x].uid && (x != c ==> t.loc[x] == s.loc[x]))
    && (OpenLoc(t.loc[c]) ==> OpenLoc(s.loc[c]))
    && Appended(s, t) == if OpenLoc(s.loc[c]) && !OpenLoc(t.loc[c]) then Some(c) else None
  }

  lemma MoveCounts(s: State, t: State, c: CmdId, u: nat)
    requires Numbered(s) && MovesOnly(s, t, c)
    ensures Counts(s, t, u)
  {
    if Open(s, u) {
      var x: CmdId :| OpenLoc(s.loc[x]) && s.note[x].uid == u;
      if OpenLoc(t.loc[x]) {
        assert Open(t, u);
      } else {
        assert x == c;
        forall y: CmdId | OpenLoc(t.loc[y])
          ensures t.note[y].uid != u
        {
          assert s.note[y].uid != s.note[c].uid;
        }
      }
    }
    if Open(t, u) {
      var x: CmdId :| OpenLoc(t.loc[x]) && t.note[x].uid == u;
      assert OpenLoc(s.loc[x]) && s.note[x].uid == u;
    }
  }

  /** A step that moves nothing. */
  lemma StayCounts(s: State, t: State, u: nat)
    requires Numbered(s) && t.loc == s.loc && t.note == s.note && t.uid == s.uid && t.q == s.q
    ensures Counts(s, t, u)
  {
  }

  lemma FetchCounts(s: State, h: HostCmd, u: nat)
    requires Inv(s) && Numbered(s) && CanFetch(s)
    ensures Counts(s, Fetch(s, h), u)
  {
    hide CmdsOk, HeadOnly, Counted, Owned, Requested, Paired, OnScript, FlashOk, TableOk, BufsOk, DmaOk, SentOk, HistOk,
         EnteredUids, Uids;
    AtHead(s.q, s.loc, InPool);
    var c, t := s.q.pool[0], Fetch(s, h);
    assert t.loc[c] == InInit && t.note[c].uid == s.uid;
    if Open(s, u) {
      var x: CmdId :| OpenLoc(s.loc[x]) && s.note[x].uid == u;
      assert OpenLoc(t.loc[x]) && t.note[x].uid == u;
    }
  }

  lemma HilCounts(s: State, st: Step, u: nat)
    requires Inv(s) && Numbered(s) && Enabled(s, st)
    requires st.PassInitStep? || st.IssueRxStep? || st.IssueTxStep? || st.PassWrittenStep? || st.RetireReadStep? || st.RetireWriteStep?
    ensures Counts(s, Do(s, st), u)
  {
    hide CmdsOk, HeadOnly, Counted, Owned, Requested, Paired, OnScript, FlashOk, TableOk, BufsOk, DmaOk, SentOk, HistOk,
         Counts, Numbered, Release;
    var l := match st case PassInitStep => InInit case IssueRxStep => InWWait case IssueTxStep => InRWait
                      case PassWrittenStep => InWIssue case RetireReadStep => InRIssue case _ => InDone;
    AtHead(s.q, s.loc, l);
    MoveCounts(s, Do(s, st), QueueAt(s.q, l)[0], u);
  }

  lemma MapCounts(s: State, u: nat)
    requires Inv(s) && Numbered(s) && CanMap(s)
    ensures Counts(s, MapCmd(s), u)
  {
    hide CmdsOk, HeadOnly, Counted, Owned, Requested, Paired, OnScript, FlashOk, TableOk, BufsOk, DmaOk, SentOk, HistOk,
         Counts, Numbered, Replay, Given, Remapped, NewAddrs, Digits;
    AtHead(s.q, s.loc, InFtlWait);
    MoveCounts(s, MapCmd(s), s.q.ftlWait[0], u);
  }

  lemma FanOutCounts(s: State, u: nat)
    requires Inv(s) && Numbered(s) && CanFanOut(s)
    ensures Counts(s, FanOut(s), u)
  {
    hide CmdsOk, HeadOnly, Counted, Owned, Requested, Paired, OnScript, FlashOk, TableOk, BufsOk, DmaOk, SentOk, HistOk,
         Counts, Numbered, RQ.EnqueueAll, CmdOps, Pipeline.Unmapped;
    AtHead(s.q, s.loc, InNandWait);
    MoveCounts(s, FanOut(s), s.q.nandWait[0], u);
  }

  lemma FinishCounts(s: State, w: WayId, u: nat)
    requires Inv(s) && Numbered(s) && CanFinish(s, w)
    ensures Counts(s, Finish(s, w), u)
  {
    hide Placed, CmdsOk, HeadOnly, Counted, Owned, Requested, Paired, OnScript, FlashOk, TableOk, BufsOk, DmaOk, SentOk,
         HistOk, Counts, Numbered, RQ.Dequeue, Medium, Memory, Disciplined;
    ReqAt(s, w, 0);
    MoveCounts(s, Finish(s, w), s.fil.queues[w][0].op.cmd, u);
  }

  lemma StepCounts(s: State, st: Step, u: nat)
    requires Inv(s) && Numbered(s) && Enabled(s, st)
    ensures Counts(s, Do(s, st), u)
  {
    hide Inv, Numbered, Counts, Fetch, PassInit, IssueRx, IssueTx, PassWritten, RetireRead, RetireWrite, MapCmd, FanOut, Finish,
         CanFetch, CanMap, CanFanOut, CanFinish;
    match st
    case FetchStep(h) => FetchCounts(s, h, u);
    case GrabStep => StayCounts(s, Do(s, st), u);
    case RxStep(b) => StayCounts(s, Do(s, st), u);
    case TxStep(b) => StayCounts(s, Do(s, st), u);
    case MapStep => MapCounts(s, u);
    case FanOutStep => FanOutCounts(s, u);
    case FinishStep(w) => FinishCounts(s, w, u);
    case _ => HilCounts(s, st, u);
  }

  lemma StartNumbered(u: nat)
    ensures Numbered(Start()) && !Closed(Start(), u)
  {
  }

  /** In every run each fetched command has been appended to read_dma_wait_q or done_q exactly once
      if it is past the FIL, and not at all before; and nothing else ever is. */
  lemma {:induction false} CompletedExactlyOnce(states: seq<State>, steps: seq<Step>, u: nat)
    requires IsRun(states, steps)
    ensures Numbered(states[|steps|])
    ensures Completions(states, u) == One(Closed(states[|steps|], u))
    decreases |steps|
  {
    hide Inv, Do, Enabled, Start, Numbered, Closed, Completes;
    if steps == [] {
      StartNumbered(u);
    } else {
      var n := |steps| - 1;
      assert IsRun(states[..n + 1], steps[..n]);
      CompletedExactlyOnce(states[..n + 1], steps[..n], u);
      EveryRun(states, steps, n);
      StepCounts(states[n], steps[n], u);
    }
  }

  /** So it is for the main loop, after any rounds. */
  lemma RoundsCompleteOnce(envs: seq<Env>, u: nat) returns (states: seq<State>, steps: seq<Step>)
    requires ValidEnvs(envs)
    ensures IsRun(states, steps) && states[|steps|] == Rounds(envs)
    ensures Completions(states, u) == One(Closed(Rounds(envs), u))
  {
    hide IsRun, Rounds, Completions, Closed, Numbered;
    states, steps := RoundsAreARun(envs);
    CompletedExactlyOnce(states, steps, u);
  }
}
