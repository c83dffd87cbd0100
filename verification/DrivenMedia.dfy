/** The main loop with its drivers and the media behind them: the rows hold what the pipeline takes the
    flash to hold after any rounds. */
module DrivenMedia {
  import opened Base
  import opened NandAddress
  import opened Model
  import RQ = RequestQueues
  import opened Pipeline
  import opened Invariant
  import opened Schedule
  import NW = NandWay
  import opened NandTraffic
  import opened DrivenRounds
  import opened NandMedium

  /** Pipeline and drivers after fil_process_nand has looked at k ways. */
  ghost function LookedAt(j: Coupled, envs: NandEnvs, k: nat): Coupled
    requires k <= 64
  {
    Coupled(PollUpTo(j.s, Answers(j.ways, envs), k), LookedUpTo(j.ways, envs, k))
  }

  ghost function LookAt(envs: NandEnvs, k: nat): Event
    requires k < 64
  {
    Polled(WayAt(k), envs[WayAt(k)])
  }

  /** The media then: the commands of each look are carried out with memory as it is at that look. */
  ghost function ChipsLookedAt(x: Bench, envs: NandEnvs, k: nat): Chips
    requires k <= 64
  {
    if k == 0 then x.chips
    else
      var before := Bench(LookedAt(x.j, envs, k - 1), ChipsLookedAt(x, envs, k - 1));
      if Possible(before.j, LookAt(envs, k - 1)) then After(before, LookAt(envs, k - 1)).chips else before.chips
  }

  ghost function AtNand(j: Coupled, e: Env): Coupled {
    var s := AtFil(j.s, e);
    Coupled(ProcessWait(s), AskedAll(s, j.ways))
  }

  /** One round of the main loop with drivers and media. */
  ghost function BenchRound(x: Bench, e: Env, envs: NandEnvs): Bench {
    Bench(CoupledRound(x.j, e, envs), ChipsLookedAt(Bench(AtNand(x.j, e), x.chips), envs, 64))
  }

  ghost function BenchRounds(chips: Chips, envs: seq<Env>, nands: seq<NandEnvs>): (x: Bench)
    requires |nands| == |envs|
    ensures x.j == CoupledRounds(envs, nands)
    decreases |envs|
  {
    if envs == [] then Bench(Begin(), chips)
    else
      var n := |envs| - 1;
      BenchRound(BenchRounds(chips, envs[..n], nands[..n]), envs[n], nands[n])
  }

  lemma AtFilMedia(x: Bench, e: Env)
    requires Joint(x.j) && MediaOk(x)
    ensures MediaOk(Bench(Coupled(AtFil(x.j.s, e), x.j.ways), x.chips))
  {
    hide Inv, ChipOk, NW.Good, AtFil;
    var s, t := x.j.s, AtFil(x.j.s, e);
    AtFilFil(s, e);
    assert t.log == s.log + t.log[|s.log|..];
    forall w: WayId
      ensures ChipOk(x.chips[w], t.flash[w], x.j.ways[w], t.log)
    {
      WayStays(x.j.ways[w]);
      ChipStays(x.chips[w], s.flash[w], x.j.ways[w], s.log, [], t.log[|s.log|..]);
    }
  }

  lemma AtNandKeeps(x: Bench, e: Env)
    requires Joint(x.j) && MediaOk(x) && ValidArrival(e.arrival)
    ensures Joint(AtNand(x.j, e)) && MediaOk(Bench(AtNand(x.j, e), x.chips))
  {
    hide Joint, MediaOk, AtFil, ChipOk;
    AtFilKeeps(x.j, e);
    AtFilMedia(x, e);
    var y := Bench(Coupled(AtFil(x.j.s, e), x.j.ways), x.chips);
    AskedAllKeeps(y.j);
    if CanFanOut(y.j.s) {
      FanOutEvent(y);
    }
  }

  lemma FanOutEvent(y: Bench)
    requires Joint(y.j) && MediaOk(y) && CanFanOut(y.j.s)
    ensures MediaOk(Bench(Coupled(ProcessWait(y.j.s), AskedAll(y.j.s, y.j.ways)), y.chips))
  {
    hide Joint, MediaOk, CanFanOut;
    AfterKeeps(y, Moved(FanOutStep));
  }

  lemma {:induction false} LooksKeepMedia(x: Bench, envs: NandEnvs, k: nat)
    requires Joint(x.j) && MediaOk(x) && k <= 64
    ensures Joint(LookedAt(x.j, envs, k)) && MediaOk(Bench(LookedAt(x.j, envs, k), ChipsLookedAt(x, envs, k)))
    decreases k
  {
    hide Joint, MediaOk, Possible, After, Next, Answers;
    LooksKeep(x.j.s, x.j.ways, envs, k);
    if k > 0 {
      LooksKeepMedia(x, envs, k - 1);
      var before := Bench(LookedAt(x.j, envs, k - 1), ChipsLookedAt(x, envs, k - 1));
      LookIsEvent(x.j.s, x.j.ways, envs, k - 1);
      AfterKeeps(before, LookAt(envs, k - 1));
      AfterNext(before, LookAt(envs, k - 1));
    }
  }

  lemma BenchRoundKeeps(x: Bench, e: Env, envs: NandEnvs)
    requires Joint(x.j) && MediaOk(x) && ValidArrival(e.arrival)
    ensures Joint(BenchRound(x, e, envs).j) && MediaOk(BenchRound(x, e, envs))
  {
    hide Joint, MediaOk, ChipsLookedAt, AtFil, ProcessWait, AskedAll, PollUpTo, LookedUpTo, Answers;
    AtNandKeeps(x, e);
    LooksKeepMedia(Bench(AtNand(x.j, e), x.chips), envs, 64);
  }

  lemma ValidFront(envs: seq<Env>)
    requires ValidEnvs(envs) && envs != []
    ensures ValidEnvs(envs[..|envs| - 1]) && ValidArrival(envs[|envs| - 1].arrival)
  {
  }

  /** After any rounds, from media of any contents, pipeline, drivers and media agree. */
  lemma {:induction false} RoundsKeepMedia(chips: Chips, envs: seq<Env>, nands: seq<NandEnvs>)
    requires |nands| == |envs| && ValidEnvs(envs)
    ensures Joint(BenchRounds(chips, envs, nands).j) && MediaOk(BenchRounds(chips, envs, nands))
    decreases |envs|
  {
    hide Joint, MediaOk, BenchRound, Begin, CoupledRounds, ValidEnvs, ValidArrival;
    if envs == [] {
      BeginsJoint();
      BeginsAgreed(Bench(Begin(), chips));
    } else {
      var n := |envs| - 1;
      ValidFront(envs);
      RoundsKeepMedia(chips, envs[..n], nands[..n]);
      BenchRoundKeeps(BenchRounds(chips, envs[..n], nands[..n]), envs[n], nands[n]);
    }
  }

  /** What the pipeline takes to be on the medium after any rounds of the main loop is on it. */
  lemma RoundsHoldPages(chips: Chips, envs: seq<Env>, nands: seq<NandEnvs>, w: WayId, b: nat, p: nat)
    requires |nands| == |envs| && ValidEnvs(envs)
    requires b in CoupledRounds(envs, nands).s.flash[w] && p < |CoupledRounds(envs, nands).s.flash[w][b]|
    ensures Lookup(BenchRounds(chips, envs, nands).chips[w].rows, 256 * b + p) == Some(CoupledRounds(envs, nands).s.flash[w][b][p])
  {
    hide Joint, MediaOk, BenchRounds, CoupledRounds;
    RoundsKeepMedia(chips, envs, nands);
    RowHoldsPage(BenchRounds(chips, envs, nands), w, b, p);
  }

  /** And once nothing is listed any more the media hold the host's disk. */
  lemma RoundsHoldDisk(chips: Chips, envs: seq<Env>, nands: seq<NandEnvs>, x: nat)
    requires |nands| == |envs| && ValidEnvs(envs) && NothingListed(CoupledRounds(envs, nands).s) && x < 16777216
    ensures var s, a := CoupledRounds(envs, nands).s, CoupledRounds(envs, nands).s.l2p[x];
            Lookup(Replay(s.hist), x) ==
            if a.valid then Lookup(BenchRounds(chips, envs, nands).chips[8 * a.way + a.ch].rows, 256 * a.block + a.page) else None
  {
    hide Joint, MediaOk, BenchRounds, CoupledRounds, NothingListed, Replay;
    RoundsKeepMedia(chips, envs, nands);
    DiskOnChips(BenchRounds(chips, envs, nands), x);
  }
}
