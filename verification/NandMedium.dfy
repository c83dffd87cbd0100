/** The NAND controllers' media, told from the commands the drivers send and from nothing else: what
    each row of a way holds, what a read has fetched and what it has put into memory. The pipeline
    speaks of blocks and pages and of finished operations; here both views are shown to agree. */
module NandMedium {
  import opened Base
  import opened NandAddress
  import opened Model
  import opened WayScript
  import RQ = RequestQueues
  import opened Pipeline
  import opened Invariant
  import opened FilFinish
  import opened Theorems
  import opened NandTraffic
  import NW = NandWay
  import opened NandOutcomes

  /** What the last read trigger fetched: the page at its row, if it holds one. */
  datatype Register = Empty | Fetched(row: nat, page: Option<Block>)

  /** What the last transfer put into which buffer. */
  datatype Load = NoLoad | Loaded(buf: BufId, page: Option<Block>)

  datatype Chip = Chip(rows: map<nat, Block>, reg: Register, load: Load)

  type Chips = s: seq<Chip> | |s| == 64 witness seq(64, _ => Chip(map[], Empty, NoLoad))

  /** A controller carries out a command: an erase clears the 256 rows of its block, a program stores
      what the buffer holds now, a trigger fetches a row, and a transfer of that row puts it into the
      buffer. A transfer of a row that was not fetched gives nothing. */
  function Served(chip: Chip, c: NW.DevCmd, mem: BlockMem): Chip {
    match c
    case EraseBlock(r) => chip.(rows := Cleared(chip.rows, r), reg := Empty)
    case ProgramPage(r, b) => chip.(rows := chip.rows[r := mem[b]], reg := Empty)
    case StatusCheck => chip
    case ReadTrigger(r) => chip.(reg := Fetched(r, Lookup(chip.rows, r)))
    case ReadTransfer(r, b) => chip.(load := Loaded(b, if chip.reg.Fetched? && chip.reg.row == r then chip.reg.page else None))
    case RawTransfer(b) => chip.(load := Loaded(b, if chip.reg.Fetched? then chip.reg.page else None))
  }

  function Cleared(rows: map<nat, Block>, row: nat): map<nat, Block> {
    map r | r in rows && r / 256 != row / 256 :: rows[r]
  }

  function ServedAll(chip: Chip, cmds: seq<NW.DevCmd>, mem: BlockMem): Chip {
    if cmds == [] then chip else Served(ServedAll(chip, cmds[..|cmds| - 1], mem), cmds[|cmds| - 1], mem)
  }

  // ---------------------------------------------------------------- rows and pages

  ghost predicate PageAgrees(rows: map<nat, Block>, fl: Flash, b: nat, p: nat)
    requires b in fl
  {
    Lookup(rows, ChipRow(b, p)) == if p < |fl[b]| then Some(fl[b][p]) else None
  }

  /** Of the erased blocks the rows hold the programmed pages, and nothing else. */
  ghost predicate Agrees(rows: map<nat, Block>, fl: Flash) {
    forall b: nat, p: nat :: b in fl && p < 256 ==> PageAgrees(rows, fl, b, p)
  }

  lemma RowsApart(b: nat, p: nat)
    requires p < 256
    ensures ChipRow(b, p) / 256 == (if b < 600 then b else 8192 + b) && ChipRow(b, p) % 256 == p
  {
  }

  lemma EraseAgrees(rows: map<nat, Block>, fl: Flash, b0: nat)
    requires Agrees(rows, fl) && b0 !in fl
    ensures Agrees(Cleared(rows, ChipRow(b0, 0)), fl[b0 := []])
  {
    hide ChipRow;
    RowsApart(b0, 0);
    var rows', fl' := Cleared(rows, ChipRow(b0, 0)), fl[b0 := []];
    forall b: nat, p: nat | b in fl' && p < 256
      ensures PageAgrees(rows', fl', b, p)
    {
      RowsApart(b, p);
      assert b in fl ==> PageAgrees(rows, fl, b, p);
    }
  }

  lemma ProgramAgrees(rows: map<nat, Block>, fl: Flash, b0: nat, p0: nat, d: Block)
    requires Agrees(rows, fl) && b0 in fl && |fl[b0]| == p0 < 256
    ensures ChipRow(b0, p0) !in rows
    ensures Agrees(rows[ChipRow(b0, p0) := d], fl[b0 := fl[b0] + [d]])
  {
    hide ChipRow;
    RowsApart(b0, p0);
    assert PageAgrees(rows, fl, b0, p0);
    var rows', fl' := rows[ChipRow(b0, p0) := d], fl[b0 := fl[b0] + [d]];
    forall b: nat, p: nat | b in fl' && p < 256
      ensures PageAgrees(rows', fl', b, p)
    {
      RowsApart(b, p);
      assert PageAgrees(rows, fl, b, p);
    }
  }

  // ---------------------------------------------------------------- one way

  /** An operation whose opening has been sent: the medium is already what it makes of it, and a read
      has fetched its page, and after a transfer put it into its buffer. */
  ghost predicate UnderWay(chip: Chip, fl: Flash, op: Op, transferred: bool, log: seq<Block>) {
    var b: nat, p: nat := op.addr.block, op.addr.page;
    match op.kind
    case EraseOp => Agrees(chip.rows, fl[b := []])
    case ProgramOp =>
      b in fl && 0 <= LogIndex(op.addr) < |log| && Agrees(chip.rows, fl[b := fl[b] + [log[LogIndex(op.addr)]]])
    case ReadOp =>
      && Agrees(chip.rows, fl) && b in fl && p < |fl[b]|
      && chip.reg == Fetched(ChipRow(b, p), Some(fl[b][p]))
      && (transferred ==> chip.load == Loaded(op.buf, Some(fl[b][p])))
  }

  ghost predicate ChipOk(chip: Chip, fl: Flash, way: NW.Way, log: seq<Block>) {
    if way.script == [] || way.queue == [] then Agrees(chip.rows, fl)
    else UnderWay(chip, fl, way.queue[0], NW.Last(way.script).ReadTransfer?, log)
  }

  /** What the operation needs: the medium is as its discipline asks, and a program's buffer holds the
      block of the log it is to store. */
  ghost predicate Fits(fl: Flash, op: Op, mem: BlockMem, log: seq<Block>) {
    && Disciplined(fl, op)
    && (op.kind == ProgramOp ==> 0 <= LogIndex(op.addr) < |log| && mem[op.buf] == log[LogIndex(op.addr)])
  }

  lemma OpeningServed(chip: Chip, fl: Flash, op: Op, mem: BlockMem, log: seq<Block>)
    requires NW.ValidOp(op) && Fits(fl, op, mem, log) && Agrees(chip.rows, fl)
    ensures UnderWay(Served(chip, NW.Opening(op), mem), fl, op, false, log) && !NW.Opening(op).ReadTransfer?
    ensures op.kind == ProgramOp ==> ChipRow(op.addr.block, op.addr.page) !in chip.rows
  {
    hide Agrees, ChipRow, NW.Opening, NW.ValidOp, LogIndex, Cleared;
    CommandsOf(op);
    var b: nat, p: nat := op.addr.block, op.addr.page;
    match op.kind
    case EraseOp => EraseAgrees(chip.rows, fl, b);
    case ProgramOp => ProgramAgrees(chip.rows, fl, b, p, mem[op.buf]);
    case ReadOp => PageThere(chip.rows, fl, b, p);
  }

  lemma PageThere(rows: map<nat, Block>, fl: Flash, b: nat, p: nat)
    requires Agrees(rows, fl) && b in fl && p < |fl[b]| && p < 256
    ensures Lookup(rows, ChipRow(b, p)) == Some(fl[b][p])
  {
    assert PageAgrees(rows, fl, b, p);
  }

  /** What an unfinished call sends: nothing, or one command that continues the script. */
  lemma CallSends(way: NW.Way, env: NW.Env)
    requires NW.Good(way) && way.queue != []
    ensures NW.CanHappen(way, NW.Polled(env)) && NW.ValidOp(way.queue[0]) && NW.StepFor(way.queue[0].kind, way.step)
    ensures var op := way.queue[0]; var o := NW.Call(op, way.step, way.retry, env);
            && |o.issued| <= 1
            && (o.done ==> o.issued == [] && way.script != [])
            && (o.issued != [] ==>
                  if way.script == [] then o.issued[0] == NW.Opening(op)
                  else if op.kind != ReadOp then o.issued[0] == NW.StatusCheck
                  else o.issued[0] in {NW.Opening(op), NW.StatusCheck, NW.ReadTransfer(NW.Row(op), op.buf)})
  {
    hide NW.Call, NW.Opening, NW.Row, NW.Watched, NW.Passes, NW.Triggers;
    NW.HeadCallable(way);
    var op := way.queue[0];
    NW.CallKeeps(op, way.step, way.retry, way.script, env);
    var o := NW.Call(op, way.step, way.retry, env);
    if o.done {
      DoneSends(op, way.step, way.retry, env);
    }
    if o.issued != [] {
      var script := way.script + o.issued;
      assert script[|way.script|] == o.issued[0];
    }
  }

  lemma DoneSends(op: Op, step: nat, retry: nat, env: NW.Env)
    requires NW.ValidOp(op) && NW.StepFor(op.kind, step) && NW.Call(op, step, retry, env).done
    ensures NW.Call(op, step, retry, env).issued == []
  {
    hide NW.ValidOp, NW.CmdDone, NW.CmdSuccess, NW.TransferComplete, NW.TransferFailed, NW.ReportDone, NW.AnyCompleteBit;
  }

  /** A command sent for the operation under way. */
  lemma NextServed(chip: Chip, fl: Flash, op: Op, mem: BlockMem, log: seq<Block>, transferred: bool, c: NW.DevCmd)
    requires NW.ValidOp(op) && Fits(fl, op, mem, log) && UnderWay(chip, fl, op, transferred, log)
    requires c == NW.StatusCheck || (op.kind == ReadOp && c in {NW.Opening(op), NW.ReadTransfer(NW.Row(op), op.buf)})
    ensures UnderWay(Served(chip, c, mem), fl, op, c.ReadTransfer?, log)
  {
    hide Agrees, ChipRow, NW.Opening, NW.ValidOp, NW.Row, LogIndex;
    CommandsOf(op);
    if c == NW.Opening(op) && op.kind == ReadOp {
      OpeningServed(chip, fl, op, mem, log);
    }
  }

  /** One look of the driver, the commands it sends carried out. */
  lemma LookServed(chip: Chip, fl: Flash, way: NW.Way, env: NW.Env, mem: BlockMem, log: seq<Block>)
    requires NW.Good(way) && way.queue != [] && Fits(fl, way.queue[0], mem, log) && ChipOk(chip, fl, way, log)
    requires NW.CanHappen(way, NW.Polled(env))
    ensures var o := NW.Call(way.queue[0], way.step, way.retry, env);
            var t := NW.Happen(way, NW.Polled(env));
            if o.done then Agrees(ServedAll(chip, o.issued, mem).rows, Medium(fl, way.queue[0], mem)) && t.script == []
            else ChipOk(ServedAll(chip, o.issued, mem), fl, t, log)
  {
    hide NW.Good, NW.Call, Agrees, NW.Opening, NW.Row, NW.ValidOp, Served, LogIndex;
    CallSends(way, env);
    var op := way.queue[0];
    var o := NW.Call(op, way.step, way.retry, env);
    if o.issued != [] {
      var c := o.issued[0];
      assert o.issued == [c] && o.issued[..0] == [];
      if way.script == [] {
        OpeningServed(chip, fl, op, mem, log);
      } else {
        NextServed(chip, fl, op, mem, log, NW.Last(way.script).ReadTransfer?, c);
      }
    } else {
      assert way.script + o.issued == way.script && ServedAll(chip, o.issued, mem) == chip;
    }
  }

  // ---------------------------------------------------------------- all ways

  /** Pipeline, drivers and the media behind the controllers. */
  datatype Bench = Bench(j: Coupled, chips: Chips)

  /** The commands one event sends, to the controller of its way. */
  ghost function SentBy(j: Coupled, e: Event): seq<NW.DevCmd>
    requires Possible(j, e)
  {
    if e.Moved? || j.ways[e.w].queue == [] then []
    else NW.Call(j.ways[e.w].queue[0], j.ways[e.w].step, j.ways[e.w].retry, e.env).issued
  }

  ghost function After(x: Bench, e: Event): Bench
    requires Possible(x.j, e)
  {
    Bench(Next(x.j, e),
          if e.Moved? then x.chips else x.chips[e.w := ServedAll(x.chips[e.w], SentBy(x.j, e), x.j.s.mem)])
  }

  ghost predicate MediaOk(x: Bench) {
    forall w: WayId :: ChipOk(x.chips[w], x.j.s.flash[w], x.j.ways[w], x.j.s.log)
  }

  // ---------------------------------------------------------------- one event

  lemma HeadFits(s: State, w: WayId)
    requires Inv(s) && s.fil.queues[w] != []
    ensures CanFinish(s, w) && Fits(s.flash[w], s.fil.queues[w][0].op, s.mem, s.log)
  {
    hide Placed, CmdsOk, HeadOnly, Counted, Owned, Requested, Paired, OnScript, FlashOk, TableOk, BufsOk, DmaOk,
         SentOk, HistOk, LogIndex;
    AlwaysDisciplined(s, w);
    if s.fil.queues[w][0].op.kind != EraseOp {
      HeadData(s, w);
    }
  }

  /** The pipeline leaves the medium alone except where a driver reports DONE, and its log only grows. */
  lemma MoveLeaves(s: State, st: Step)
    requires Enabled(s, st) && !st.FinishStep?
    ensures Do(s, st).flash == s.flash && s.log <= Do(s, st).log
  {
    hide RQ.EnqueueAll, CmdOps, Unmapped, Uids, EnteredUids, Release, Replay, Given, NewAddrs, Remapped;
  }

  lemma ChipStays(chip: Chip, fl: Flash, way: NW.Way, log: seq<Block>, ops: seq<Op>, more: seq<Block>)
    requires NW.Good(way) && ChipOk(chip, fl, way, log)
    ensures ChipOk(chip, fl, NW.Extended(way, ops), log + more)
  {
    hide Agrees, ChipRow, LogIndex, NW.Watched, NW.Whole, NW.InProgress, NW.Passes;
  }

  lemma FanOutMove(s: State, st: Step)
    requires Enabled(s, st) && st.FanOutStep?
    ensures CanFanOut(s)
  {
  }

  lemma ChipMoved(x: Bench, st: Step, w: WayId)
    requires Joint(x.j) && MediaOk(x) && Possible(x.j, Moved(st))
    ensures var y := After(x, Moved(st)); ChipOk(y.chips[w], y.j.s.flash[w], y.j.ways[w], y.j.s.log)
  {
    hide Inv, ChipOk, NW.Good, Do, Enabled, Added;
    var s, t := x.j.s, Do(x.j.s, st);
    MoveLeaves(s, st);
    if st.FanOutStep? {
      FanOutMove(s, st);
    }
    assert t.log == s.log + t.log[|s.log|..];
    WayStays(x.j.ways[w]);
    ChipStays(x.chips[w], s.flash[w], x.j.ways[w], s.log, if st.FanOutStep? then RQ.Pick(Added(s), w) else [], t.log[|s.log|..]);
  }

  lemma WayStays(way: NW.Way)
    ensures NW.Extended(way, []) == way
  {
    assert way.queue + [] == way.queue && way.asked + [] == way.asked;
  }

  lemma ChipLooked(x: Bench, w: WayId, env: NW.Env, v: WayId)
    requires Joint(x.j) && MediaOk(x) && Possible(x.j, Polled(w, env))
    ensures var y := After(x, Polled(w, env)); ChipOk(y.chips[v], y.j.s.flash[v], y.j.ways[v], y.j.s.log)
  {
    hide Inv, NW.Good, NW.Call, OnTrack, Disciplined, Medium, Memory, UnderWay, Agrees;
    var s, way := x.j.s, x.j.ways[w];
    assert ChipOk(x.chips[v], s.flash[v], x.j.ways[v], s.log);
    if v == w && way.queue != [] {
      HeadFits(s, w);
      LookServed(x.chips[w], s.flash[w], way, env, s.mem, s.log);
    }
  }

  lemma AfterKeeps(x: Bench, e: Event)
    requires Joint(x.j) && MediaOk(x) && Possible(x.j, e)
    ensures Joint(After(x, e).j) && MediaOk(After(x, e))
  {
    hide Joint, ChipOk, Possible, Next, MediaOk, After;
    NextKeeps(x.j, e);
    forall w: WayId
      ensures ChipOk(After(x, e).chips[w], After(x, e).j.s.flash[w], After(x, e).j.ways[w], After(x, e).j.s.log)
    {
      if e.Moved? {
        ChipMoved(x, e.st, w);
      } else {
        ChipLooked(x, e.w, e.env, w);
      }
    }
    MediaFrom(After(x, e));
    AfterNext(x, e);
  }

  lemma AfterNext(x: Bench, e: Event)
    requires Possible(x.j, e)
    ensures After(x, e).j == Next(x.j, e)
  {
    hide Possible, Next, SentBy;
  }

  lemma MediaFrom(x: Bench)
    requires forall w: WayId :: ChipOk(x.chips[w], x.j.s.flash[w], x.j.ways[w], x.j.s.log)
    ensures MediaOk(x)
  {
  }

  // ---------------------------------------------------------------- runs

  /** Pipeline and drivers start as they do; of the media nothing is known. */
  ghost predicate BenchRuns(xs: seq<Bench>, events: seq<Event>) {
    && |xs| == |events| + 1 && xs[0].j == Begin()
    && forall i :: 0 <= i < |events| ==> Possible(xs[i].j, events[i]) && xs[i + 1] == After(xs[i], events[i])
  }

  lemma {:induction false} EveryBenchRun(xs: seq<Bench>, events: seq<Event>, i: nat)
    requires BenchRuns(xs, events) && i < |xs|
    ensures Joint(xs[i].j) && MediaOk(xs[i])
    decreases i
  {
    hide Joint, Possible, After, Begin, MediaOk;
    if i == 0 {
      BeginsJoint();
      BeginsAgreed(xs[0]);
    } else {
      EveryBenchRun(xs, events, i - 1);
      AfterKeeps(xs[i - 1], events[i - 1]);
    }
  }

  lemma BeginsAgreed(x: Bench)
    requires x.j == Begin()
    ensures MediaOk(x)
  {
  }

  lemma ChipAt(x: Bench, w: WayId)
    requires MediaOk(x)
    ensures ChipOk(x.chips[w], x.j.s.flash[w], x.j.ways[w], x.j.s.log)
  {
  }

  // ---------------------------------------------------------------- what it means

  lemma PageBelow(fl: Flash, t: nat, w: WayId, log: seq<Block>, b: nat, p: nat)
    requires HoldsLog(fl, t, w, log) && |log| < WRITE_LIMIT && b in fl && p < |fl[b]|
    ensures b < 512 && p < 128
  {
    assert HoldsPage(fl, w, log, b, p);
  }

  lemma JointFlash(j: Coupled, w: WayId)
    requires Joint(j)
    ensures HoldsLog(j.s.flash[w], j.s.pos[w], w, j.s.log) && |j.s.log| < WRITE_LIMIT && NW.Good(j.ways[w])
  {
    hide Placed, CmdsOk, HeadOnly, Counted, Owned, Requested, Paired, OnScript, TableOk, BufsOk, DmaOk,
         SentOk, HistOk, HoldsLog, NW.Good;
  }

  /** What the pipeline takes to be on the medium is on it: row 256 b + p of every way holds what page
      p of block b is said to hold, in every run. */
  lemma RowsHoldPages(xs: seq<Bench>, events: seq<Event>, i: nat, w: WayId, b: nat, p: nat)
    requires BenchRuns(xs, events) && i < |xs| && b in xs[i].j.s.flash[w] && p < |xs[i].j.s.flash[w][b]|
    ensures Lookup(xs[i].chips[w].rows, 256 * b + p) == Some(xs[i].j.s.flash[w][b][p])
  {
    hide Joint, BenchRuns, MediaOk;
    EveryBenchRun(xs, events, i);
    RowHoldsPage(xs[i], w, b, p);
  }

  lemma RowHoldsPage(x: Bench, w: WayId, b: nat, p: nat)
    requires Joint(x.j) && MediaOk(x) && b in x.j.s.flash[w] && p < |x.j.s.flash[w][b]|
    ensures b < 512 && p < 128
    ensures Lookup(x.chips[w].rows, 256 * b + p) == Some(x.j.s.flash[w][b][p])
  {
    hide Joint, MediaOk, HoldsLog, ChipOk, NW.Good, Fits, CanFinish, Inv;
    var s, way := x.j.s, x.j.ways[w];
    JointFlash(x.j, w);
    PageBelow(s.flash[w], s.pos[w], w, s.log, b, p);
    ChipAt(x, w);
    if way.queue != [] {
      HeadListed(x.j, w);
      HeadFits(s, w);
    }
    PageOnChip(x.chips[w], s.flash[w], way, s.mem, s.log, b, p);
  }

  lemma PageOnChip(chip: Chip, fl: Flash, way: NW.Way, mem: BlockMem, log: seq<Block>, b: nat, p: nat)
    requires ChipOk(chip, fl, way, log) && (way.queue != [] ==> Fits(fl, way.queue[0], mem, log))
    requires b in fl && p < |fl[b]| && b < 512 && p < 128
    ensures Lookup(chip.rows, 256 * b + p) == Some(fl[b][p])
  {
    hide LogIndex, Agrees, PageAgrees;
    if way.script == [] || way.queue == [] || way.queue[0].kind == ReadOp {
      PageThere(chip.rows, fl, b, p);
    } else {
      var op := way.queue[0];
      var b0: nat := op.addr.block;
      PageThere(chip.rows, if op.kind == EraseOp then fl[b0 := []] else fl[b0 := fl[b0] + [log[LogIndex(op.addr)]]], b, p);
    }
  }

  lemma HeadListed(j: Coupled, w: WayId)
    requires Joint(j) && j.ways[w].queue != []
    ensures Inv(j.s) && j.s.fil.queues[w] != [] && j.ways[w].queue[0] == j.s.fil.queues[w][0].op
  {
    hide Inv, NW.Good, OnTrack;
    assert InStep(j.s, j.ways[w], w);
  }

  /** A program command goes to a row that has been erased and not programmed since, and stores there
      the block of the log that the page was given to: its buffer holds it when the command is sent. */
  lemma ProgramsAreFresh(xs: seq<Bench>, events: seq<Event>, i: nat, w: WayId, env: NW.Env, row: nat, buf: BufId)
    requires BenchRuns(xs, events) && i < |xs| && Possible(xs[i].j, Polled(w, env))
    requires SentBy(xs[i].j, Polled(w, env)) == [NW.ProgramPage(row, buf)]
    ensures row !in xs[i].chips[w].rows && xs[i].j.ways[w].queue != []
    ensures var op := xs[i].j.ways[w].queue[0];
            && op.kind == ProgramOp && op.buf == buf && row == 256 * op.addr.block + op.addr.page
            && 0 <= LogIndex(op.addr) < |xs[i].j.s.log| && op.addr == AddrOf(LogIndex(op.addr))
            && xs[i].j.s.mem[buf] == xs[i].j.s.log[LogIndex(op.addr)]
  {
    hide Joint, BenchRuns, MediaOk;
    EveryBenchRun(xs, events, i);
    ProgramIsFresh(xs[i], w, env, row, buf);
  }

  lemma ProgramIsFresh(x: Bench, w: WayId, env: NW.Env, row: nat, buf: BufId)
    requires Joint(x.j) && MediaOk(x) && Possible(x.j, Polled(w, env))
    requires SentBy(x.j, Polled(w, env)) == [NW.ProgramPage(row, buf)]
    ensures row !in x.chips[w].rows && x.j.ways[w].queue != []
    ensures var op := x.j.ways[w].queue[0];
            && op.kind == ProgramOp && op.buf == buf && row == 256 * op.addr.block + op.addr.page
            && 0 <= LogIndex(op.addr) < |x.j.s.log| && op.addr == AddrOf(LogIndex(op.addr))
            && x.j.s.mem[buf] == x.j.s.log[LogIndex(op.addr)]
  {
    hide Joint, MediaOk, LogIndex, AddrOf, NW.Good, NW.Call, NW.Opening, NW.Row, NW.ValidOp, Agrees, Disciplined, Served, Inv;
    var way := x.j.ways[w];
    JointFlash(x.j, w);
    ChipAt(x, w);
    CallSends(way, env);
    HeadListed(x.j, w);
    HeadFits(x.j.s, w);
    var op := way.queue[0];
    CommandsOf(op);
    OpeningServed(x.chips[w], x.j.s.flash[w], op, x.j.s.mem, x.j.s.log);
    RequestHanded(x.j.s, w, 0);
    AddrOfFacts(LogIndex(op.addr));
  }

  /** A read whose transfer the driver sees complete and corrected ends there and then, and what that
      transfer has put into its buffer is the page at row 256 b + p, the block the pipeline says it has
      read. */
  lemma ReadLoads(xs: seq<Bench>, events: seq<Event>, i: nat, w: WayId, env: NW.Env)
    requires BenchRuns(xs, events) && i < |events| && events[i] == Polled(w, env)
    requires var way := xs[i].j.ways[w]; way.queue != [] && way.queue[0].kind == ReadOp && Succeeds(way.step, env)
    ensures var op := xs[i].j.ways[w].queue[0]; var got := xs[i + 1].j.s.mem[op.buf];
            && Finished(xs[i].j.ways[w], env)
            && xs[i + 1].chips[w].load == Loaded(op.buf, Some(got))
            && Lookup(xs[i].chips[w].rows, 256 * op.addr.block + op.addr.page) == Some(got)
  {
    hide Joint, BenchRuns, MediaOk, Possible, After, Finished, Succeeds;
    BenchStep(xs, events, i);
    EveryBenchRun(xs, events, i);
    ReadLoadsPage(xs[i], w, env);
  }

  lemma BenchStep(xs: seq<Bench>, events: seq<Event>, i: nat)
    requires BenchRuns(xs, events) && i < |events|
    ensures |xs| == |events| + 1 && Possible(xs[i].j, events[i]) && xs[i + 1] == After(xs[i], events[i])
  {
    hide Possible, After;
  }

  lemma ReadLoadsPage(x: Bench, w: WayId, env: NW.Env)
    requires Joint(x.j) && MediaOk(x) && Possible(x.j, Polled(w, env))
    requires var way := x.j.ways[w]; way.queue != [] && way.queue[0].kind == ReadOp && Succeeds(way.step, env)
    ensures var op := x.j.ways[w].queue[0]; var y := After(x, Polled(w, env)); var got := y.j.s.mem[op.buf];
            && Finished(x.j.ways[w], env)
            && y.chips[w].load == Loaded(op.buf, Some(got))
            && Lookup(x.chips[w].rows, 256 * op.addr.block + op.addr.page) == Some(got)
  {
    hide Joint, MediaOk, NW.Good, NW.Call, Inv, Agrees, HoldsLog, Succeeds;
    var s, way := x.j.s, x.j.ways[w];
    var op := way.queue[0];
    JointFlash(x.j, w);
    ChipAt(x, w);
    HeadListed(x.j, w);
    HeadFits(s, w);
    SuccessEnds(way, env);
    RowHoldsPage(x, w, op.addr.block, op.addr.page);
  }

  /** Nothing is sent at a success, and the last command was the transfer. */
  lemma SuccessEnds(way: NW.Way, env: NW.Env)
    requires NW.Good(way) && way.queue != [] && way.queue[0].kind == ReadOp && Succeeds(way.step, env)
    ensures NW.CanHappen(way, NW.Polled(env)) && NW.ValidOp(way.queue[0])
    ensures way.script != [] && NW.Last(way.script).ReadTransfer?
    ensures var o := NW.Call(way.queue[0], way.step, way.retry, env); o.done && o.issued == []
  {
    hide NW.Call, NW.ValidOp, NW.SoFar, NW.Whole, NW.Triggers, Corrected, NW.Watched, NW.Passes;
    NW.HeadCallable(way);
    TransferLook(way.queue[0], way.retry, env);
  }

  // ---------------------------------------------------------------- the disk on the medium

  /** No command waits for the FIL and no way has anything to do. */
  ghost predicate NothingListed(s: State) {
    s.q.nandWait == [] && forall w: WayId :: s.fil.queues[w] == []
  }

  /** Then every write of the log has been programmed. */
  lemma AllProgrammed(s: State, w: WayId)
    requires OnScript(s.fil, AllOps(s.q.nandWait, s.cmds, s.bufAddr), s.pos, |s.log|) && NothingListed(s)
    ensures s.pos[w] == EndPos(WritesOn(w, |s.log|))
  {
    assert Todo(s.fil, AllOps(s.q.nandWait, s.cmds, s.bufAddr), w) == [];
    assert Exec(s.pos[w], []) == Some(s.pos[w]);
  }

  lemma LogOnFlash(s: State, a: NandAddr)
    requires OnScript(s.fil, AllOps(s.q.nandWait, s.cmds, s.bufAddr), s.pos, |s.log|) && NothingListed(s)
    requires FlashOk(s.flash, s.pos, s.log) && Handed(a, s.log)
    ensures var fl := s.flash[WayOf(a)];
            a.block in fl && a.page < |fl[a.block]| && fl[a.block][a.page] == s.log[LogIndex(a)]
  {
    hide OnScript, AddrOf, LogIndex, HoldsLog, EndPos, WritesOn, ProgPos, AllOps, NothingListed, FlashOk, PageIndex;
    var n, w := LogIndex(a), WayOf(a);
    AllProgrammed(s, w);
    AddrOfFacts(n);
    WriteCounted(n, |s.log|);
    ReadableAtEnd(n / 64, WritesOn(w, |s.log|));
    FlashAt(s, w);
    AddrFits(a);
    ReadFits(s.flash[w], s.pos[w], w, s.log, a);
  }

  lemma AddrFits(a: NandAddr)
    requires 0 <= LogIndex(a) < WRITE_LIMIT && a == AddrOf(LogIndex(a))
    ensures a.block >= FIRST_BLOCK && a.page < 128
  {
    AddrOfFacts(LogIndex(a));
  }

  /** When nothing is listed, the disk the host has written is on the media: for every host address the
      row its table entry leads to, on the way it names, holds the block last written there. */
  lemma DiskIsOnMedia(xs: seq<Bench>, events: seq<Event>, i: nat, x: nat)
    requires BenchRuns(xs, events) && i < |xs| && NothingListed(xs[i].j.s) && x < 16777216
    ensures var s, a := xs[i].j.s, xs[i].j.s.l2p[x];
            Lookup(Replay(s.hist), x) ==
            if a.valid then Lookup(xs[i].chips[8 * a.way + a.ch].rows, 256 * a.block + a.page) else None
  {
    hide Joint, BenchRuns, MediaOk, NothingListed, Replay;
    EveryBenchRun(xs, events, i);
    DiskOnChips(xs[i], x);
  }

  lemma DiskOnChips(bench: Bench, x: nat)
    requires Joint(bench.j) && MediaOk(bench) && NothingListed(bench.j.s) && x < 16777216
    ensures var s, a := bench.j.s, bench.j.s.l2p[x];
            Lookup(Replay(s.hist), x) ==
            if a.valid then Lookup(bench.chips[8 * a.way + a.ch].rows, 256 * a.block + a.page) else None
  {
    hide Joint, MediaOk, NothingListed, Replay, Lookup, Inv, WayOf;
    var s := bench.j.s;
    var a := s.l2p[x];
    JointInv(bench.j);
    EntryLeads(s, x);
    if a.valid {
      WayIs(a);
      RowHoldsPage(bench, WayOf(a), a.block, a.page);
    } else {
      assert Lookup(Replay(s.hist), x) == None;
    }
  }

  lemma WayIs(a: NandAddr)
    ensures WayOf(a) == 8 * a.way + a.ch
  {
  }

  lemma EntryLeads(s: State, x: nat)
    requires Inv(s) && NothingListed(s) && x < 16777216
    ensures var a, d := s.l2p[x], Lookup(Replay(s.hist), x); var fl := s.flash[WayOf(a)];
            && (a.valid <==> d.Some?)
            && (a.valid ==> a.block in fl && a.page < |fl[a.block]| && fl[a.block][a.page] == d.value)
  {
    hide Placed, CmdsOk, HeadOnly, Counted, Owned, Requested, Paired, OnScript, FlashOk, BufsOk, DmaOk, SentOk, HistOk,
         NothingListed, Replay, Handed, LogIndex, AllOps;
    assert EntryOk(s.l2p[x], Lookup(Replay(s.hist), x), s.log);
    if s.l2p[x].valid {
      LogOnFlash(s, s.l2p[x]);
    }
  }
}
