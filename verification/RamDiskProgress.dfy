/** The two threads of the RAM disk never wait for each other forever: some step is possible while any
    command is live, every step brings the end nearer, and so every command is counted and retired. */
module RamDiskProgress {
  import opened Base
  import opened Model
  import opened RamDisk
  import opened RamDiskSafety
  import Ring = CmdQueue

  predicate Starts(st: Step) {
    st.StartRead? || st.StartWrite?
  }

  // ---------------------------------------------------------------- some step is possible

  ghost predicate CopierMoves(s: State) {
    Enabled(s, Copy) || Enabled(s, Count) || Enabled(s, Advance)
  }

  ghost predicate Moves(s: State, st: Step) {
    !Starts(st) && Enabled(s, st)
  }

  ghost predicate CanMove(s: State) {
    exists st :: Moves(s, st)
  }

  /** The main thread spins in issue_read or issue_write. */
  predicate WaitsForRoom(s: State) {
    s.main.Issuing? && RingFull(s)
  }

  /** While anything is in the ring the copying thread has a step to take. */
  lemma CopierGoesOn(d0: Disk, s: State)
    requires Inv(d0, s) && Pending(s) != []
    ensures CopierMoves(s)
  {
    hide CmdsOk, MainOk, Disjoint, AllDataOk, DiskOk, SentOk;
    Ring.WindowSize(s.slots, s.head, s.tail);
    if s.copier != Counted {
      HeadEntry(s);
    }
  }

  /** So the main thread never waits for room in vain. */
  lemma RoomWillCome(d0: Disk, s: State)
    requires Inv(d0, s) && WaitsForRoom(s)
    ensures CopierMoves(s)
  {
    hide Inv;
    Ring.WindowSize(s.slots, s.head, s.tail);
    CopierGoesOn(d0, s);
  }

  /** With the ring empty the command at the head of cmd_list is counted in full. */
  lemma EmptyRingCounted(s: State, c: nat)
    requires RingOk(s) && CmdsOk(s) && Pending(s) == [] && s.main == Idle && c in s.cmds
    ensures s.cmds[c].done == s.cmds[c].nblock
  {
    CmdAt(s, c);
  }

  ghost predicate Live(s: State) {
    !s.main.Exited? && (s.main != Idle || s.list != [])
  }

  /** Deadlock freedom: while a command is live some step of one of the threads is possible. */
  lemma NeverStuck(d0: Disk, s: State)
    requires Inv(d0, s) && Live(s)
    ensures CanMove(s)
  {
    if Pending(s) != [] {
      CopierGoesOn(d0, s);
      assert Moves(s, Copy) || Moves(s, Count) || Moves(s, Advance);
    } else {
      MainMoves(d0, s);
    }
  }

  lemma MainMoves(d0: Disk, s: State)
    requires Inv(d0, s) && Live(s) && Pending(s) == []
    ensures CanMove(s)
  {
    hide EntriesOk, Disjoint, AllDataOk, DiskOk, SentOk, IssuedOk;
    Ring.WindowSize(s.slots, s.head, s.tail);
    if s.main == Idle {
      EmptyRingCounted(s, s.list[0]);
      assert Moves(s, Retire);
    } else {
      CmdAt(s, s.main.cmd);
      match s.main
      case Receiving(_, _) => assert Moves(s, Receive);
      case Issuing(c, i) => assert Moves(s, if i < s.cmds[c].nblock then Fill else EndIssue);
      case Filled(_, _) => assert Moves(s, Publish);
      case Sending(c, i) => assert Moves(s, if i < s.cmds[c].nblock then Send else EndSend);
    }
  }

  // ---------------------------------------------------------------- every step makes progress

  /** What is left to do for a command once it is in cmd_list: retire it, and for a read send it. */
  function RetireCost(cmds: map<nat, CmdRec>, c: nat): nat {
    if c !in cmds then 0 else if cmds[c].typ == Rd then cmds[c].nblock + 2 else 1
  }

  function ListCost(list: seq<nat>, cmds: map<nat, CmdRec>): nat {
    if list == [] then 0 else RetireCost(cmds, list[0]) + ListCost(list[1..], cmds)
  }

  /** What is left to do for the command the main thread is at. */
  function MainCost(s: State): int {
    if s.main == Idle || s.main.Exited? || s.main.cmd !in s.cmds then 0
    else
      var n, i := s.cmds[s.main.cmd].nblock, s.main.i;
      match s.main
      case Receiving(_, _) => (n - i) + 1 + (5 * n + 1) + 1
      case Issuing(_, _) => 5 * (n - i) + 1
      case Filled(_, _) => 5 * (n - i)
      case Sending(_, _) => (n - i) + 1
  }

  /** Copying, counting and moving the head, for each entry in the ring. */
  ghost function CopierCost(s: State): int {
    3 * |Pending(s)| - (if s.copier == Waiting then 0 else if s.copier == Copied then 1 else 2)
  }

  ghost function Rank(s: State): int {
    CopierCost(s) + MainCost(s) + ListCost(if s.main.Sending? && s.list != [] then s.list[1..] else s.list, s.cmds)
  }

  /** What a new command adds. */
  function StartCost(st: Step): nat {
    match st
    case StartRead(_, _, buf) => 5 * |buf| + 1 + |buf| + 2
    case StartWrite(_, _, buf, _) => |buf| + 1 + (5 * |buf| + 1) + 1
    case _ => 0
  }

  lemma {:induction false} ListCostSame(list: seq<nat>, cmds: map<nat, CmdRec>, cmds': map<nat, CmdRec>)
    requires forall c :: c in list ==> RetireCost(cmds', c) == RetireCost(cmds, c)
    ensures ListCost(list, cmds') == ListCost(list, cmds)
    decreases list
  {
    hide RetireCost;
    if list == [] {
    } else {
      ListCostSame(list[1..], cmds, cmds');
    }
  }

  lemma {:induction false} ListCostPush(list: seq<nat>, cmds: map<nat, CmdRec>, c: nat)
    ensures ListCost(list + [c], cmds) == ListCost(list, cmds) + RetireCost(cmds, c)
    decreases list
  {
    hide RetireCost;
    if list == [] {
      assert [c][1..] == [];
    } else {
      ListCostPush(list[1..], cmds, c);
      assert (list + [c])[1..] == list[1..] + [c];
    }
  }

  lemma CopySteps(s: State)
    requires RingOk(s) && Enabled(s, Copy)
    ensures Rank(Do(s, Copy)) == Rank(s) - 1
  {
  }

  lemma CountSteps(s: State)
    requires RingOk(s) && Enabled(s, Count)
    ensures Rank(Do(s, Count)) == Rank(s) - 1
  {
    var t := Do(s, Count);
    ListCostSame(s.list, s.cmds, t.cmds);
    ListCostSame(if s.list != [] then s.list[1..] else [], s.cmds, t.cmds);
  }

  lemma AdvanceSteps(s: State)
    requires RingOk(s) && Enabled(s, Advance)
    ensures Rank(Do(s, Advance)) == Rank(s) - 1
  {
    AdvanceView(s);
  }

  lemma FillSteps(s: State)
    requires RingOk(s) && MainOk(s) && Enabled(s, Fill)
    ensures Rank(Do(s, Fill)) < Rank(s)
  {
    FillView(s, EntryFor(s.main.cmd, s.cmds[s.main.cmd], s.main.i));
  }

  lemma PublishSteps(s: State)
    requires RingOk(s) && MainOk(s) && Enabled(s, Publish)
    ensures Rank(Do(s, Publish)) == Rank(s) - 1
  {
    PublishView(s);
  }

  lemma ReceiveSteps(s: State)
    requires RingOk(s) && MainOk(s) && Enabled(s, Receive) && CmdOk(s, s.main.cmd)
    ensures Rank(Do(s, Receive)) == Rank(s) - 1
  {
    hide IssuedOk, Owing, Uncounted;
    ListCostPush(s.list, s.cmds, s.main.cmd);
  }

  /** The first command goes: what is left to do for the others is as before. */
  lemma FreeCost(s: State)
    requires MainOk(s) && s.list != []
    ensures ListCost(Free(s).list, Free(s).cmds) == ListCost(s.list[1..], s.cmds)
  {
    var t := Free(s);
    forall c | c in t.list
      ensures RetireCost(t.cmds, c) == RetireCost(s.cmds, c)
    {
      var k :| 0 <= k < |t.list| && t.list[k] == c;
      assert s.list[k + 1] == c;
    }
    ListCostSame(t.list, s.cmds, t.cmds);
  }

  lemma RetireSteps(s: State)
    requires MainOk(s) && Enabled(s, Retire)
    ensures Rank(Do(s, Retire)) == Rank(s) - 1
  {
    hide Ring.Window;
    if s.cmds[s.list[0]].typ == Wr {
      FreeCost(s);
    }
  }

  lemma EndSendSteps(s: State)
    requires MainOk(s) && Enabled(s, EndSend)
    ensures Rank(Do(s, EndSend)) == Rank(s) - 1
  {
    hide Ring.Window;
    FreeCost(s);
  }

  lemma StartSteps(s: State, st: Step)
    requires RingOk(s) && MainOk(s) && Enabled(s, st) && Starts(st)
    ensures Rank(Do(s, st)) == Rank(s) + StartCost(st)
  {
    var c, t := st.cmd, Do(s, st);
    assert c !in s.list;
    ListCostSame(s.list, s.cmds, t.cmds);
    ListCostPush(s.list, t.cmds, c);
  }

  lemma RankSum(s: State)
    requires RingOk(s) && MainOk(s)
    ensures Rank(s) >= 0
  {
  }

  /** Every step but the start of a command lowers the rank, and a start raises it by what the command
      will cost. */
  lemma RankMoves(d0: Disk, s: State, st: Step)
    requires Inv(d0, s) && Enabled(s, st)
    ensures Rank(s) >= 0
    ensures if Starts(st) then Rank(Do(s, st)) == Rank(s) + StartCost(st) else Rank(Do(s, st)) < Rank(s)
  {
    RankSum(s);
    if s.main.Receiving? {
      CmdAt(s, s.main.cmd);
    }
    hide RingOk, EntriesOk, CmdsOk, MainOk, Disjoint, AllDataOk, DiskOk, SentOk, Do, Rank, StartCost, CmdOk;
    match st
    case StartRead(_, _, _) => StartSteps(s, st);
    case StartWrite(_, _, _, _) => StartSteps(s, st);
    case Receive => ReceiveSteps(s);
    case Fill => FillSteps(s);
    case Publish => PublishSteps(s);
    case EndIssue => EndIssueSteps(s);
    case Retire => RetireSteps(s);
    case Send => SendSteps(s);
    case EndSend => EndSendSteps(s);
    case Copy => CopySteps(s);
    case Count => CountSteps(s);
    case Advance => AdvanceSteps(s);
  }

  lemma EndIssueSteps(s: State)
    requires MainOk(s) && Enabled(s, EndIssue)
    ensures Rank(Do(s, EndIssue)) < Rank(s)
  {
  }

  lemma SendSteps(s: State)
    requires MainOk(s) && Enabled(s, Send)
    ensures Rank(Do(s, Send)) < Rank(s)
  {
  }

  // ---------------------------------------------------------------- whole runs

  function StartCosts(steps: seq<Step>): nat {
    if steps == [] then 0 else StartCosts(steps[..|steps| - 1]) + StartCost(steps[|steps| - 1])
  }

  /** The steps that do not start a command. */
  function Work(steps: seq<Step>): nat {
    if steps == [] then 0 else Work(steps[..|steps| - 1]) + (if Starts(steps[|steps| - 1]) then 0 else 1)
  }

  /** In every interleaving the steps taken for the commands started so far, and what is left to do
      for them, are no more than they cost. */
  lemma {:induction false} WorkIsBounded(d0: Disk, states: seq<State>, steps: seq<Step>)
    requires IsRun(d0, states, steps)
    ensures 0 <= Rank(states[|steps|]) && Work(steps) + Rank(states[|steps|]) <= StartCosts(steps)
    decreases |steps|
  {
    hide Inv, Enabled, Do, Rank, StartCost;
    var n := |steps| - 1;
    if steps == [] {
      StartRank(d0, states[0]);
    } else {
      assert IsRun(d0, states[..n + 1], steps[..n]);
      WorkIsBounded(d0, states[..n + 1], steps[..n]);
      EveryRun(d0, states, steps, n);
      EveryRun(d0, states, steps, n + 1);
      RankMoves(d0, states[n], steps[n]);
      RankNonNeg(d0, states[n + 1]);
    }
  }

  lemma StartRank(d0: Disk, s: State)
    requires IsStart(d0, s)
    ensures Rank(s) == 0
  {
  }

  lemma RankNonNeg(d0: Disk, s: State)
    requires Inv(d0, s)
    ensures Rank(s) >= 0
  {
    hide RingOk, MainOk, Rank;
    RankSum(s);
  }

  /** So once no more commands are started, whatever the two threads do they come to an end, after no
      more steps than the rank says; and when neither can go on every command has been counted,
      retired and freed, unless exit was called. */
  lemma {:induction false} Drains(d0: Disk, states: seq<State>, steps: seq<Step>)
    requires |states| == |steps| + 1 && Inv(d0, states[0])
    requires forall k :: 0 <= k < |steps| ==> Moves(states[k], steps[k]) && states[k + 1] == Do(states[k], steps[k])
    ensures |steps| <= Rank(states[0]) && Inv(d0, states[|steps|])
    ensures var end := states[|steps|]; !CanMove(end) && !end.main.Exited? ==> end.main == Idle && end.list == [] && end.cmds == map[]
    decreases |steps|
  {
    hide Inv, Enabled, Do, Rank, Live, CanMove;
    if steps == [] {
      RankNonNeg(d0, states[0]);
      AtEnd(d0, states[0]);
    } else {
      assert Moves(states[0], steps[0]);
      StepKeeps(d0, states[0], steps[0]);
      RankMoves(d0, states[0], steps[0]);
      Drains(d0, states[1..], steps[1..]);
    }
  }

  lemma AtEnd(d0: Disk, s: State)
    requires Inv(d0, s)
    ensures !CanMove(s) && !s.main.Exited? ==> s.main == Idle && s.list == [] && s.cmds == map[]
  {
    hide RingOk, EntriesOk, CmdsOk, Disjoint, AllDataOk, DiskOk, SentOk, CanMove;
    if Live(s) {
      NeverStuck(d0, s);
    }
  }

  // ---------------------------------------------------------------- the copying thread alone

  predicate IsCopier(st: Step) {
    st == Copy || st == Count || st == Advance
  }

  /** The copying thread's next step is one step nearer to the empty ring, wherever the main thread is. */
  lemma CopierStep(d0: Disk, s: State) returns (st: Step)
    requires Inv(d0, s) && Pending(s) != []
    ensures IsCopier(st) && Enabled(s, st) && Inv(d0, Do(s, st)) && Do(s, st).main == s.main
    ensures CopierCost(Do(s, st)) == CopierCost(s) - 1 >= 0 && Do(s, st).cmds.Keys == s.cmds.Keys
  {
    hide Pending, CopierCost, Do, RingOk, EntriesOk, CmdsOk, MainOk, Disjoint, AllDataOk, DiskOk, SentOk;
    CopierGoesOn(d0, s);
    st := if s.copier == Waiting then Copy else if s.copier == Copied then Count else Advance;
    StepKeeps(d0, s, st);
    CopierStepCost(s, st);
  }

  lemma CopierStepCost(s: State, st: Step)
    requires RingOk(s) && IsCopier(st) && Enabled(s, st)
    ensures CopierCost(Do(s, st)) == CopierCost(s) - 1 >= 0 && Do(s, st).main == s.main && Do(s, st).cmds.Keys == s.cmds.Keys
  {
    hide Ring.Window;
    Ring.WindowSize(s.slots, s.head, s.tail);
    if st == Advance {
      AdvanceView(s);
    }
  }

  /** However far behind the copying thread is, after exactly CopierCost steps of its own the ring is
      empty, and every command that has been issued in full is counted in full. */
  lemma {:induction false} CopierCatchesUp(d0: Disk, s: State) returns (steps: seq<Step>, states: seq<State>)
    requires Inv(d0, s)
    ensures |states| == |steps| + 1 && states[0] == s && |steps| == CopierCost(s)
    ensures forall k :: 0 <= k < |steps| ==>
      IsCopier(steps[k]) && Enabled(states[k], steps[k]) && states[k + 1] == Do(states[k], steps[k])
    ensures var t := states[|steps|];
            && Inv(d0, t) && t.main == s.main && t.cmds.Keys == s.cmds.Keys && Pending(t) == []
            && (s.main == Idle ==> forall c :: c in t.cmds ==> t.cmds[c].done == t.cmds[c].nblock)
    decreases CopierCost(s)
  {
    hide Inv, Enabled, Do, CopierCost;
    if Pending(s) == [] {
      steps, states := [], [s];
      CaughtUp(d0, s);
    } else {
      var st := CopierStep(d0, s);
      var rest, more := CopierCatchesUp(d0, Do(s, st));
      steps, states := [st] + rest, [s] + more;
    }
  }

  lemma CaughtUp(d0: Disk, s: State)
    requires Inv(d0, s) && Pending(s) == []
    ensures CopierCost(s) == 0
    ensures s.main == Idle ==> forall c :: c in s.cmds ==> s.cmds[c].done == s.cmds[c].nblock
  {
    hide EntriesOk, CmdsOk, MainOk, Disjoint, AllDataOk, DiskOk, SentOk;
    if s.main == Idle {
      forall c | c in s.cmds
        ensures s.cmds[c].done == s.cmds[c].nblock
      {
        EmptyRingCounted(s, c);
      }
    }
  }
}
