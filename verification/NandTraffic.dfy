/** The pipeline and the NAND drivers of its 64 ways together: an operation finishes when a call of
    its way's driver says so, and what the NAND controllers are sent is a function of the host's
    writes. */
module NandTraffic {
  import opened Base
  import opened NandAddress
  import opened Model
  import opened WayScript
  import RQ = RequestQueues
  import opened Pipeline
  import opened Invariant
  import opened Preservation
  import opened FilFanOut
  import opened FilFinish
  import opened Machine
  import opened Theorems
  import NW = NandWay

  type Ways = s: seq<NW.Way> | |s| == 64 witness seq(64, _ => NW.FRESH_WAY)

  /** ways[w] is the driver's view of way w: its cells, its copy of the request list, its history. */
  datatype Coupled = Coupled(s: State, ways: Ways)

  /** A step of the pipeline other than finishing an operation, or one look of fil_process_nand at a
      way, where the driver sees env. */
  datatype Event = Moved(st: Step) | Polled(w: WayId, env: NW.Env)

  ghost function Begin(): Coupled {
    Coupled(Start(), seq(64, _ => NW.FRESH_WAY))
  }

  /** The driver returns DONE for the first request of the list. */
  ghost predicate Finished(way: NW.Way, env: NW.Env) {
    && way.queue != [] && NW.CanHappen(way, NW.Polled(env))
    && NW.Call(way.queue[0], way.step, way.retry, env).done
  }

  /** What fil_process_wait adds to the lists. */
  ghost function Added(s: State): seq<Op>
    requires CanFanOut(s)
  {
    FanOps(s, s.q.nandWait[0])
  }

  /** A pipeline step is possible when its guard holds; looking at a way is possible when the driver
      can be called, and DONE when the medium allows it, which Runs shows to be always. */
  ghost predicate Possible(j: Coupled, e: Event) {
    match e
    case Moved(st) => !st.FinishStep? && Enabled(j.s, st)
    case Polled(w, env) => NW.CanHappen(j.ways[w], NW.Polled(env)) && (Finished(j.ways[w], env) ==> CanFinish(j.s, w))
  }

  ghost function Next(j: Coupled, e: Event): Coupled
    requires Possible(j, e)
  {
    match e
    case Moved(st) =>
      Coupled(Do(j.s, st),
              if st.FanOutStep? then seq(64, w requires 0 <= w < 64 => NW.Extended(j.ways[w], RQ.Pick(Added(j.s), w))) else j.ways)
    case Polled(w, env) =>
      Coupled(if Finished(j.ways[w], env) then Finish(j.s, w) else j.s,
              j.ways[w := NW.Happen(j.ways[w], NW.Polled(env))])
  }

  /** The erases and programs among operations, in order. */
  function Writes(ops: seq<Op>): seq<Op> {
    if ops == [] then []
    else
      var n := |ops| - 1;
      Writes(ops[..n]) + (if ops[n].kind == ReadOp then [] else [ops[n]])
  }

  ghost predicate OnTrack(writes: seq<Op>, pos: nat) {
    |writes| == pos && forall t :: 0 <= t < pos ==> ActOf(writes[t]) == ScriptAt(t)
  }

  /** The driver's list is the FIL's; its way is in order; its finished writes are the script so far. */
  ghost predicate InStep(s: State, way: NW.Way, w: WayId) {
    && NW.Good(way) && way.queue == RQ.Ops(s.fil.queues[w])
    && OnTrack(Writes(way.asked[..|way.scripts|]), s.pos[w])
  }

  ghost predicate Joint(j: Coupled) {
    Inv(j.s) && forall w: WayId :: InStep(j.s, j.ways[w], w)
  }

  // ---------------------------------------------------------------- one event

  lemma JointInv(j: Coupled)
    requires Joint(j)
    ensures Inv(j.s)
  {
    hide Inv;
  }

  lemma FilStays(s: State, st: Step)
    requires Enabled(s, st) && !st.FinishStep? && !st.FanOutStep?
    ensures Do(s, st).fil == s.fil && Do(s, st).pos == s.pos
  {
  }

  /** Everything listed is within the driver's address range. */
  lemma ListedValid(s: State, w: WayId)
    requires Inv(s)
    ensures forall op :: op in RQ.Ops(s.fil.queues[w]) ==> NW.ValidOp(op)
  {
    hide Inv;
    forall k: nat | k < |s.fil.queues[w]|
      ensures NW.ValidOp(RQ.Ops(s.fil.queues[w])[k])
    {
      RequestsAddressable(s, w, k);
    }
  }

  lemma FanOutInStep(j: Coupled, w: WayId)
    requires Joint(j) && CanFanOut(j.s)
    ensures InStep(FanOut(j.s), NW.Extended(j.ways[w], RQ.Pick(Added(j.s), w)), w)
  {
    hide Inv, NW.Good, NW.ValidOp, FanOut, CanFanOut, OnTrack;
    var way, ops, t := j.ways[w], RQ.Pick(Added(j.s), w), FanOut(j.s);
    FanOutListsAll(j.s, w);
    FanOutKeeps(j.s);
    ListedValid(t, w);
    assert forall op :: op in ops ==> op in RQ.Ops(t.fil.queues[w]);
    NW.ExtendedGood(way, ops);
    PosMoves(j.s, FanOutStep, w);
    FinishedBefore(way);
    assert NW.Extended(way, ops).asked[..|way.scripts|] == way.asked[..|way.scripts|];
  }

  lemma FinishedBefore(way: NW.Way)
    requires NW.Good(way)
    ensures |way.scripts| <= |way.asked|
  {
  }

  lemma FanOutListsAll(s: State, w: WayId)
    requires Inv(s) && CanFanOut(s)
    ensures RQ.Ops(FanOut(s).fil.queues[w]) == RQ.Ops(s.fil.queues[w]) + RQ.Pick(Added(s), w)
  {
    hide CmdsOk, HeadOnly, Counted, Requested, Owned, Paired, OnScript, FlashOk, TableOk, BufsOk, DmaOk, SentOk, HistOk;
    hide CmdOps, FanOut;
    AtHead(s.q, s.loc, InNandWait);
    FanOutFil(s, s.q.nandWait[0]);
  }

  /** When the driver says DONE, the list and the record of what is finished move on together. */
  lemma FinishInStep(s: State, way: NW.Way, w: WayId, env: NW.Env)
    requires Inv(s) && InStep(s, way, w) && Finished(way, env)
    ensures CanFinish(s, w) && InStep(Finish(s, w), NW.Happen(way, NW.Polled(env)), w)
  {
    hide Inv, NW.Good, Finish, Disciplined, NW.Call;
    AlwaysDisciplined(s, w);
    NW.PollKeeps(way, env);
    FinishLists(s, w);
    PosMoves(s, FinishStep(w), w);
    FinishedBefore(way);
    HeadIsNext(way);
    var t, n := NW.Happen(way, NW.Polled(env)), |way.scripts|;
    assert t.asked[..n + 1] == t.asked[..n] + [way.queue[0]];
    assert t.asked[..n + 1][..n] == way.asked[..n];
  }

  lemma HeadIsNext(way: NW.Way)
    requires NW.Good(way) && way.queue != []
    ensures |way.scripts| < |way.asked| && way.queue[0] == way.asked[|way.scripts|]
  {
  }

  lemma FinishLists(s: State, w: WayId)
    requires CanFinish(s, w)
    ensures RQ.Ops(Finish(s, w).fil.queues[w]) == RQ.Ops(s.fil.queues[w])[1..]
    ensures forall v: WayId :: v != w ==> Finish(s, w).fil.queues[v] == s.fil.queues[v]
  {
  }

  /** The driver can be called whenever fil_process_nand comes by, with an operation in its range and
      its cell at a step of that operation's protocol; and when it says DONE the operation fits what
      the medium holds. */
  lemma CallsAreLegal(j: Coupled, w: WayId, env: NW.Env)
    requires Joint(j)
    ensures Possible(j, Polled(w, env))
  {
    hide Inv, NW.Good, NW.Call, OnTrack, Finish, Disciplined;
    NW.PollKeeps(j.ways[w], env);
    if Finished(j.ways[w], env) {
      AlwaysDisciplined(j.s, w);
    }
  }

  lemma PollInStep(j: Coupled, w: WayId, env: NW.Env, v: WayId)
    requires Joint(j) && Possible(j, Polled(w, env))
    ensures var t := Next(j, Polled(w, env)); InStep(t.s, t.ways[v], v)
  {
    hide Inv, NW.Good, NW.Call, OnTrack, Finish, Disciplined;
    var way := j.ways[w];
    if Finished(way, env) {
      if v == w {
        FinishInStep(j.s, way, w, env);
      } else {
        FinishLists(j.s, w);
        PosMoves(j.s, FinishStep(w), v);
      }
    } else {
      NW.PollKeeps(way, env);
    }
  }

  lemma NextKeeps(j: Coupled, e: Event)
    requires Joint(j) && Possible(j, e)
    ensures Joint(Next(j, e))
  {
    hide Inv, InStep, Do, Enabled, NW.Happen, NW.CanHappen;
    var t := Next(j, e);
    match e
    case Moved(st) =>
      StepKeeps(j.s, st);
      if st.FanOutStep? {
        forall w: WayId
          ensures InStep(t.s, t.ways[w], w)
        {
          FanOutInStepDo(j, w);
        }
      } else {
        FilStays(j.s, st);
        forall w: WayId
          ensures InStep(t.s, t.ways[w], w)
        {
          SameInStep(j.s, t.s, j.ways[w], w);
        }
      }
    case Polled(w, env) =>
      if Finished(j.ways[w], env) {
        FinishKeeps(j.s, w);
      }
      forall v: WayId
        ensures InStep(t.s, t.ways[v], v)
      {
        PollInStep(j, w, env, v);
      }
  }

  lemma FanOutInStepDo(j: Coupled, w: WayId)
    requires Joint(j) && Enabled(j.s, FanOutStep)
    ensures CanFanOut(j.s) && InStep(Do(j.s, FanOutStep), NW.Extended(j.ways[w], RQ.Pick(Added(j.s), w)), w)
  {
    hide Inv, InStep;
    FanOutInStep(j, w);
  }

  lemma SameInStep(s: State, t: State, way: NW.Way, w: WayId)
    requires InStep(s, way, w) && t.fil == s.fil && t.pos == s.pos
    ensures InStep(t, way, w)
  {
  }

  // ---------------------------------------------------------------- runs

  ghost predicate Runs(js: seq<Coupled>, events: seq<Event>) {
    && |js| == |events| + 1 && js[0] == Begin()
    && forall i :: 0 <= i < |events| ==> Possible(js[i], events[i]) && js[i + 1] == Next(js[i], events[i])
  }

  lemma BeginsJoint()
    ensures Joint(Begin())
  {
    hide Inv, NW.Good;
    StartHolds();
    NW.StartGood();
    forall w: WayId
      ensures InStep(Begin().s, Begin().ways[w], w)
    {
      assert RQ.Ops(Start().fil.queues[w]) == [];
      StartPos(w);
    }
  }

  /** Pipeline and drivers stay in step in every run, whatever the drivers get to see. */
  lemma {:induction false} EveryCoupledRun(js: seq<Coupled>, events: seq<Event>, i: nat)
    requires Runs(js, events) && i < |js|
    ensures Joint(js[i])
    decreases i
  {
    hide Joint, Possible, Next, Begin;
    if i == 0 {
      BeginsJoint();
    } else {
      EveryCoupledRun(js, events, i - 1);
      NextKeeps(js[i - 1], events[i - 1]);
    }
  }

  // ---------------------------------------------------------------- what the controllers are sent

  predicate Writing(c: NW.DevCmd) {
    c.EraseBlock? || c.ProgramPage?
  }

  /** The erase and program commands of a trace, in order. */
  function WriteCmds(trace: seq<NW.DevCmd>): seq<NW.DevCmd> {
    if trace == [] then []
    else
      var n := |trace| - 1;
      WriteCmds(trace[..n]) + (if Writing(trace[n]) then [trace[n]] else [])
  }

  /** The command asks for that erase or program. */
  ghost predicate Asks(c: NW.DevCmd, a: Act) {
    match a
    case Erasing(b) => 0 <= b < TOTAL_BLOCKS_PER_DIE && c == NW.EraseBlock(RowAddress(b, 0))
    case Programming(b, p) => 0 <= b < TOTAL_BLOCKS_PER_DIE && 0 <= p && c.ProgramPage? && c.row == RowAddress(b, p)
  }

  lemma {:induction false} WriteCmdsAppend(a: seq<NW.DevCmd>, b: seq<NW.DevCmd>)
    ensures WriteCmds(a + b) == WriteCmds(a) + WriteCmds(b)
    decreases b
  {
    if b == [] {
      assert a + b == a;
    } else {
      var n := |b| - 1;
      WriteCmdsAppend(a, b[..n]);
      assert (a + b)[..|a + b| - 1] == a + b[..n];
    }
  }

  /** An operation's commands contain its erase or program once, at the start. */
  lemma {:induction false} WriteCmdsOfScript(op: Op, script: seq<NW.DevCmd>)
    requires NW.ValidOp(op) && NW.SoFar(op, script)
    ensures WriteCmds(script) == if script == [] || op.kind == ReadOp then [] else [NW.Opening(op)]
    decreases script
  {
    hide NW.Row;
    if script == [] {
    } else {
      var n := |script| - 1;
      assert forall k :: 0 <= k < n ==> script[..n][k] == script[k];
      WriteCmdsOfScript(op, script[..n]);
    }
  }

  lemma {:induction false} WriteCmdsOfAll(ops: seq<Op>, scripts: seq<seq<NW.DevCmd>>)
    requires |ops| == |scripts| && forall k :: 0 <= k < |ops| ==> NW.ValidOp(ops[k]) && NW.Whole(ops[k], scripts[k])
    ensures |WriteCmds(NW.Flat(scripts))| == |Writes(ops)|
    ensures forall t :: 0 <= t < |Writes(ops)| ==> Asks(WriteCmds(NW.Flat(scripts))[t], ActOf(Writes(ops)[t]))
    decreases ops
  {
    hide NW.ValidOp, NW.Whole, NW.Opening, Asks, ActOf;
    if ops == [] {
    } else {
      var n := |ops| - 1;
      assert forall k :: 0 <= k < n ==> ops[..n][k] == ops[k] && scripts[..n][k] == scripts[k];
      WriteCmdsOfAll(ops[..n], scripts[..n]);
      WriteCmdsAppend(NW.Flat(scripts[..n]), scripts[n]);
      WriteCmdsOfWhole(ops[n], scripts[n]);
    }
  }

  lemma OpeningAsks(op: Op)
    requires NW.ValidOp(op) && op.kind != ReadOp
    ensures Asks(NW.Opening(op), ActOf(op))
  {
  }

  lemma WriteCmdsOfWhole(op: Op, script: seq<NW.DevCmd>)
    requires NW.ValidOp(op) && NW.Whole(op, script)
    ensures if op.kind == ReadOp then WriteCmds(script) == []
            else WriteCmds(script) == [NW.Opening(op)] && Asks(NW.Opening(op), ActOf(op))
  {
    hide NW.ValidOp, NW.SoFar, NW.Opening, Asks, ActOf;
    WriteCmdsOfScript(op, script);
    if op.kind != ReadOp {
      OpeningAsks(op);
    }
  }

  /** The erase and program commands the controller of way w has been sent are Erase(50),
      Program(50, 0), Program(50, 1), ..., none missing, none twice, none out of order; and all but
      perhaps the last of them are finished. */
  ghost predicate SentInOrder(j: Coupled, w: WayId) {
    var cmds, pos := WriteCmds(j.ways[w].trace), j.s.pos[w];
    pos <= |cmds| <= pos + 1 && forall t :: 0 <= t < |cmds| ==> Asks(cmds[t], ScriptAt(t))
  }

  /** So it is on every way, in every run. */
  lemma ControllerFollowsScript(js: seq<Coupled>, events: seq<Event>, i: nat, w: WayId)
    requires Runs(js, events) && i < |js|
    ensures SentInOrder(js[i], w)
  {
    hide Joint, Runs, SentInOrder;
    EveryCoupledRun(js, events, i);
    JointFollowsScript(js[i], w);
  }

  lemma JointFollowsScript(j: Coupled, w: WayId)
    requires Joint(j)
    ensures SentInOrder(j, w)
  {
    hide Inv, ScriptAt, Asks, NW.Good;
    var s, way := j.s, j.ways[w];
    TraceSplits(way);
    if way.script != [] && way.queue[0].kind != ReadOp {
      AlwaysDisciplined(s, w);
      PosMoves(s, FinishStep(w), w);
      OpeningAsks(way.queue[0]);
      assert RQ.Ops(s.fil.queues[w])[0] == s.fil.queues[w][0].op;
    }
  }

  lemma TraceSplits(way: NW.Way)
    requires NW.Good(way)
    ensures |way.scripts| <= |way.asked| && (way.script != [] ==> way.queue != [] && NW.ValidOp(way.queue[0]))
    ensures var cmds, writes := WriteCmds(way.trace), Writes(way.asked[..|way.scripts|]);
            && |cmds| == |writes| + (if way.script == [] || way.queue[0].kind == ReadOp then 0 else 1)
            && (forall t :: 0 <= t < |writes| ==> Asks(cmds[t], ActOf(writes[t])))
            && (|cmds| > |writes| ==> cmds[|writes|] == NW.Opening(way.queue[0]))
  {
    hide NW.ValidOp, NW.Row, Asks, NW.Opening, NW.Whole, NW.SoFar;
    var done := way.asked[..|way.scripts|];
    WriteCmdsAppend(NW.Flat(way.scripts), way.script);
    WriteCmdsOfAll(done, way.scripts);
    if way.script != [] {
      WriteCmdsOfScript(way.queue[0], way.script);
    }
  }

  /** A run of the coupled machine is, for the pipeline, a run of the machine: everything proved of
      those holds here. */
  lemma {:induction false} IsPipelineRun(js: seq<Coupled>, events: seq<Event>) returns (states: seq<State>, steps: seq<Step>)
    requires Runs(js, events)
    ensures IsRun(states, steps) && states[|steps|] == js[|events|].s
    decreases |events|
  {
    hide Possible, Next, Do, Enabled;
    if events == [] {
      states, steps := [Start()], [];
      assert Begin().s == Start();
    } else {
      var n := |events| - 1;
      assert Runs(js[..n + 1], events[..n]);
      var before, taken := IsPipelineRun(js[..n + 1], events[..n]);
      var st := StepOf(js[n], events[n]);
      if st.None? {
        states, steps := before, taken;
      } else {
        states, steps := before + [js[n + 1].s], taken + [st.value];
        RunExtends(before, taken, st.value, js[n + 1].s);
      }
    }
  }

  lemma StepOf(j: Coupled, e: Event) returns (st: Option<Step>)
    requires Possible(j, e)
    ensures if st.None? then Next(j, e).s == j.s else Enabled(j.s, st.value) && Next(j, e).s == Do(j.s, st.value)
  {
    match e
    case Moved(step) => st := Some(step);
    case Polled(w, env) => st := if Finished(j.ways[w], env) then Some(FinishStep(w)) else None;
  }

  lemma RunExtends(states: seq<State>, steps: seq<Step>, st: Step, t: State)
    requires IsRun(states, steps) && Enabled(states[|steps|], st) && t == Do(states[|steps|], st)
    ensures IsRun(states + [t], steps + [st])
  {
    hide Do, Enabled, Start;
  }
}
