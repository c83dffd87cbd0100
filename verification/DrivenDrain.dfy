/** The main loop with the NAND drivers comes to rest: once the host sends nothing more, and whenever the
    NAND works for a while, every command gets back to the pool. */
module DrivenDrain {
  import opened Base
  import opened NandAddress
  import opened Model
  import RQ = RequestQueues
  import opened Pipeline
  import opened Invariant
  import opened FilFinish
  import opened Progress
  import opened Schedule
  import NW = NandWay
  import opened NandTraffic
  import opened DrivenRounds
  import opened RoundSteps

  /** Further rounds of pipeline and drivers. */
  ghost function CoupledFrom(j: Coupled, envs: seq<Env>, nands: seq<NandEnvs>): Coupled
    requires |nands| == |envs|
    decreases |envs|
  {
    if envs == [] then j else CoupledFrom(CoupledRound(j, envs[0], nands[0]), envs[1..], nands[1..])
  }

  predicate NoArrivals(envs: seq<Env>) {
    forall k :: 0 <= k < |envs| ==> envs[k].arrival.None?
  }

  // ---------------------------------------------------------------- one round

  lemma {:induction false} AllLooked(ways: Ways, envs: NandEnvs, k: nat, m: nat)
    requires m < k <= 64
    ensures LookedUpTo(ways, envs, k)[WayAt(m)] == AfterLook(ways[WayAt(m)], envs[WayAt(m)])
    decreases k
  {
    hide AfterLook;
    if m == k - 1 {
    } else {
      AllLooked(ways, envs, k - 1, m);
      if WayAt(k - 1) == WayAt(m) {
        WayAtOnce(k - 1, m);
      }
    }
  }

  /** Nothing but the drivers moves: the pipeline is as it was, and no driver returns DONE. */
  ghost predicate OnlyLooks(j: Coupled, envs: NandEnvs, t: Coupled) {
    && t.s == j.s
    && forall w: WayId :: !Finished(j.ways[w], envs[w]) && t.ways[w] == AfterLook(j.ways[w], envs[w])
  }

  lemma IdleLooks(j: Coupled, e: Env, envs: NandEnvs)
    requires Joint(j) && AtFil(j.s, e) == j.s && CoupledRound(j, e, envs).s == j.s && Idle(j.s, Played(j, e, envs).polls)
    ensures OnlyLooks(j, envs, CoupledRound(j, e, envs))
  {
    hide Joint, Idle, AtFil, AfterLook, Finished, LookedUpTo, Played, CoupledRound, WayAt;
    IdleAsks(j, e, envs);
    forall w: WayId
      ensures !Finished(j.ways[w], envs[w]) && CoupledRound(j, e, envs).ways[w] == AfterLook(j.ways[w], envs[w])
    {
      var k := WayIndex(w);
      AllLooked(j.ways, envs, 64, k);
      IdleUnfinished(j, Played(j, e, envs).polls, w, envs[w]);
    }
  }

  /** A round without an arrival lowers the rank, or it is one in which the drivers only look. */
  lemma RoundOrLooks(j: Coupled, e: Env, envs: NandEnvs)
    requires Joint(j) && e.arrival.None?
    ensures var t := CoupledRound(j, e, envs);
            Rank(t.s) < Rank(j.s) || (OnlyLooks(j, envs, t) && Idle(j.s, Played(j, e, envs).polls))
  {
    hide Joint, Rank, Path, Quiet, Idle, Round, Played, AtFil, OnlyLooks, CoupledRound;
    JointInv(j);
    IsRound(j, e, envs);
    OnlyPolls(j, e, envs);
    var p := Played(j, e, envs);
    var steps := RoundSteps.RoundSteps(j.s, p);
    PathRank(j.s, steps, Round(j.s, p));
    if steps == [] {
      SameAtFil(j.s, e, p);
      IdleLooks(j, e, envs);
    }
  }

  lemma SameAtFil(s: State, e: Env, p: Env)
    requires p == e.(polls := p.polls)
    ensures Transfers(AfterFtl(s, p), p.beforeFil) == AtFil(s, e)
  {
    hide HilRun, FtlRun, Transfers;
  }

  /** With nothing to fan out, the answers and looks of the round are those of the drivers as they are. */
  lemma IdleAsks(j: Coupled, e: Env, envs: NandEnvs)
    requires AtFil(j.s, e) == j.s && Idle(j.s, Played(j, e, envs).polls)
    ensures Played(j, e, envs).polls == Answers(j.ways, envs)
    ensures CoupledRound(j, e, envs).ways == LookedUpTo(j.ways, envs, 64)
  {
    hide AtFil, CanFanOut, CanMap, CanFinish, HilIdle, Answers, LookedUpTo, Schedule.FilRun;
  }

  lemma IdleUnfinished(j: Coupled, polls: Polls, w: WayId, env: NW.Env)
    requires Joint(j) && Idle(j.s, polls) && polls[w] == Finished(j.ways[w], env)
    ensures !Finished(j.ways[w], env)
  {
    hide Inv, NW.Good, NW.Call, OnTrack, HilIdle, CanMap, CanFanOut, Disciplined, WayAt;
    var k := WayIndex(w);
    if Finished(j.ways[w], env) {
      AlwaysDisciplined(j.s, w);
    }
  }

  // ---------------------------------------------------------------- a stretch of rounds

  /** In each of the rounds the devices have answered by the time their drivers look. */
  ghost predicate AllAnswered(j: Coupled, envs: seq<Env>, nands: seq<NandEnvs>)
    requires |nands| == |envs|
    decreases |envs|
  {
    envs != [] ==>
      && (forall w: WayId :: NW.Answered(j.ways[w].step, nands[0][w]))
      && AllAnswered(CoupledRound(j, envs[0], nands[0]), envs[1..], nands[1..])
  }

  /** In how many of the rounds way w takes commands. */
  function Takes(nands: seq<NandEnvs>, w: WayId): nat {
    if nands == [] then 0 else (if NW.Issuable(nands[0][w]) then 1 else 0) + Takes(nands[1..], w)
  }

  /** A stretch in which the NAND works: answers come, and every way takes commands often enough for
      one operation. */
  ghost predicate Serving(j: Coupled, envs: seq<Env>, nands: seq<NandEnvs>)
    requires |nands| == |envs|
  {
    AllAnswered(j, envs, nands) && forall w: WayId :: Takes(nands, w) >= NW.MAX_LOOKS
  }

  lemma {:induction false} RankFalls(j: Coupled, envs: seq<Env>, nands: seq<NandEnvs>)
    requires Joint(j) && |nands| == |envs| && NoArrivals(envs)
    ensures var t := CoupledFrom(j, envs, nands); Joint(t) && Rank(t.s) <= Rank(j.s)
    decreases |envs|
  {
    hide Joint, Rank, CoupledRound, Idle, Played;
    if envs == [] {
    } else {
      RoundOrLooks(j, envs[0], nands[0]);
      CoupledRoundKeeps(j, envs[0], nands[0]);
      RankFalls(CoupledRound(j, envs[0], nands[0]), envs[1..], nands[1..]);
    }
  }

  /** What the driver of way w still has to do for the first operation of its list. */
  ghost function Left(way: NW.Way): nat
    requires way.queue != []
  {
    NW.LooksLeft(way.queue[0].kind, way.step, way.retry)
  }

  /** A look that does not finish the operation gains on it. */
  lemma LookGains(way: NW.Way, env: NW.Env)
    requires NW.Good(way) && way.queue != [] && NW.Answered(way.step, env)
    ensures var t := AfterLook(way, env);
            !Finished(way, env) ==> t.queue == way.queue && Left(t) + (if NW.Issuable(env) then 1 else 0) <= Left(way)
  {
    hide NW.InProgress, NW.Call, NW.Whole, NW.Issuable, NW.LooksLeft, NW.Answered;
    NW.PollKeeps(way, env);
    NW.LookGains(way.queue[0], way.step, way.retry, way.script, env);
  }

  lemma LeftBounds(way: NW.Way)
    requires NW.Good(way) && way.queue != []
    ensures 1 <= Left(way) <= NW.MAX_LOOKS
  {
  }

  lemma JointGood(j: Coupled, w: WayId)
    requires Joint(j)
    ensures NW.Good(j.ways[w]) && j.ways[w].queue == RQ.Ops(j.s.fil.queues[w])
  {
    hide Inv, NW.Good, OnTrack;
  }

  /** Once way w takes commands as often as its operation needs, something has moved. */
  lemma {:induction false} WayServed(j: Coupled, envs: seq<Env>, nands: seq<NandEnvs>, w: WayId)
    requires Joint(j) && |nands| == |envs| && NoArrivals(envs) && AllAnswered(j, envs, nands)
    requires j.ways[w].queue != [] && Takes(nands, w) >= Left(j.ways[w])
    ensures Rank(CoupledFrom(j, envs, nands).s) < Rank(j.s)
    decreases |envs|
  {
    hide Joint, Rank, CoupledRound, Idle, Played, NW.Answered, NW.Issuable, Left, Finished, AfterLook;
    JointGood(j, w);
    if envs == [] {
      LeftBounds(j.ways[w]);
    } else {
      LookGains(j.ways[w], nands[0][w]);
      RoundOrLooks(j, envs[0], nands[0]);
      CoupledRoundKeeps(j, envs[0], nands[0]);
      var t := CoupledRound(j, envs[0], nands[0]);
      if OnlyLooks(j, nands[0], t) {
        WayServed(t, envs[1..], nands[1..], w);
      } else {
        RankFalls(t, envs[1..], nands[1..]);
      }
    }
  }

  /** A stretch in which the NAND works makes progress, whatever else happens in it, while a command is
      in flight and the log has room. */
  lemma StretchDrops(j: Coupled, envs: seq<Env>, nands: seq<NandEnvs>, c: CmdId)
    requires Joint(j) && |nands| == |envs| && NoArrivals(envs) && Serving(j, envs, nands)
    requires j.s.loc[c] != InPool && !Exhausted(j.s)
    ensures Rank(CoupledFrom(j, envs, nands).s) < Rank(j.s)
  {
    hide Joint, Rank, CoupledRound, Idle, Played, NW.Answered, NW.Issuable, Exhausted, Moves;
    assert Takes(nands, 0) >= 1;
    var e, envs0 := envs[0], nands[0];
    RoundOrLooks(j, e, envs0);
    CoupledRoundKeeps(j, e, envs0);
    if OnlyLooks(j, envs0, CoupledRound(j, e, envs0)) && Idle(j.s, Played(j, e, envs0).polls) {
      JointInv(j);
      NeverStuck(j.s, c);
      var st :| Moves(j.s, st);
      IdleOnlyFinishes(j.s, Played(j, e, envs0).polls, st);
      JointGood(j, st.w);
      LeftBounds(j.ways[st.w]);
      WayServed(j, envs, nands, st.w);
    } else {
      RankFalls(CoupledRound(j, e, envs0), envs[1..], nands[1..]);
    }
  }

  // ---------------------------------------------------------------- the main loop comes to rest

  /** Rounds from up to, but not including, to. */
  datatype Stretch = Stretch(from: nat, to: nat)

  /** The stretches lie one after the other among n rounds; between them anything may happen. */
  ghost predicate Laid(stretches: seq<Stretch>, n: nat) {
    && (forall i :: 0 <= i < |stretches| ==> stretches[i].from <= stretches[i].to <= n)
    && (forall i :: 0 < i < |stretches| ==> stretches[i - 1].to <= stretches[i].from)
  }

  ghost predicate Served(j: Coupled, envs: seq<Env>, nands: seq<NandEnvs>, x: Stretch)
    requires |nands| == |envs| && x.from <= x.to <= |envs|
  {
    Serving(CoupledFrom(j, envs[..x.from], nands[..x.from]), envs[x.from..x.to], nands[x.from..x.to])
  }

  ghost predicate AtRest(s: State) {
    Drained(s) || Exhausted(s)
  }

  lemma {:induction false} FromAppend(j: Coupled, envs: seq<Env>, nands: seq<NandEnvs>, a: nat, b: nat)
    requires |nands| == |envs| && a <= b <= |envs|
    ensures CoupledFrom(j, envs[..b], nands[..b]) == CoupledFrom(CoupledFrom(j, envs[..a], nands[..a]), envs[a..b], nands[a..b])
    decreases a
  {
    hide CoupledRound;
    if a == 0 {
      assert envs[a..b] == envs[..b] && nands[a..b] == nands[..b];
    } else {
      FromAppend(CoupledRound(j, envs[0], nands[0]), envs[1..], nands[1..], a - 1, b - 1);
      assert envs[..b][1..] == envs[1..][..b - 1] && nands[..b][1..] == nands[1..][..b - 1];
      assert envs[..a][1..] == envs[1..][..a - 1] && nands[..a][1..] == nands[1..][..a - 1];
      assert envs[1..][a - 1..b - 1] == envs[a..b] && nands[1..][a - 1..b - 1] == nands[a..b];
    }
  }

  /** The rank between two points of a run without arrivals. */
  lemma RankBetween(j: Coupled, envs: seq<Env>, nands: seq<NandEnvs>, a: nat, b: nat)
    requires Joint(j) && |nands| == |envs| && NoArrivals(envs) && a <= b <= |envs|
    ensures Joint(CoupledFrom(j, envs[..a], nands[..a]))
    ensures Rank(CoupledFrom(j, envs[..b], nands[..b]).s) <= Rank(CoupledFrom(j, envs[..a], nands[..a]).s)
  {
    hide Joint, Rank, CoupledFrom;
    RankFalls(j, envs[..a], nands[..a]);
    RankFalls(CoupledFrom(j, envs[..a], nands[..a]), envs[a..b], nands[a..b]);
    FromAppend(j, envs, nands, a, b);
  }

  /** Until the pipeline is at rest every stretch lowers the rank by one at least. */
  lemma {:induction false} StretchesLower(j: Coupled, envs: seq<Env>, nands: seq<NandEnvs>, stretches: seq<Stretch>, i: nat)
    requires Joint(j) && |nands| == |envs| && NoArrivals(envs) && Laid(stretches, |envs|) && i <= |stretches|
    requires forall k :: 0 <= k < |stretches| ==> Served(j, envs, nands, stretches[k])
    requires forall n :: 0 <= n <= |envs| ==> !AtRest(CoupledFrom(j, envs[..n], nands[..n]).s)
    ensures var n := if i == 0 then 0 else stretches[i - 1].to;
            n <= |envs| && Rank(CoupledFrom(j, envs[..n], nands[..n]).s) + i <= Rank(j.s)
    decreases i
  {
    hide Joint, Rank, CoupledFrom, Exhausted, Serving;
    if i == 0 {
      FromNothing(j, envs[..0], nands[..0]);
    } else {
      StretchesLower(j, envs, nands, stretches, i - 1);
      var x := stretches[i - 1];
      var before := if i == 1 then 0 else stretches[i - 2].to;
      RankBetween(j, envs, nands, before, x.from);
      RankBetween(j, envs, nands, x.from, x.to);
      FromAppend(j, envs, nands, x.from, x.to);
      var t := CoupledFrom(j, envs[..x.from], nands[..x.from]);
      assert !AtRest(t.s);
      var c: CmdId :| t.s.loc[c] != InPool;
      StretchDrops(t, envs[x.from..x.to], nands[x.from..x.to], c);
    }
  }

  lemma FromNothing(j: Coupled, envs: seq<Env>, nands: seq<NandEnvs>)
    requires envs == [] && nands == []
    ensures CoupledFrom(j, envs, nands) == j
  {
  }

  /** The main loop comes to rest: once nothing arrives any more, and after as many stretches in which
      the NAND works as the rank says, every command has got back to the pool, or the log is used up.
      Whatever the drivers see between the stretches, they cannot undo it. */
  lemma RoundsDrain(j: Coupled, envs: seq<Env>, nands: seq<NandEnvs>, stretches: seq<Stretch>) returns (n: nat)
    requires Joint(j) && |nands| == |envs| && NoArrivals(envs) && Laid(stretches, |envs|) && |stretches| >= Rank(j.s)
    requires forall k :: 0 <= k < |stretches| ==> Served(j, envs, nands, stretches[k])
    ensures n <= |envs| && AtRest(CoupledFrom(j, envs[..n], nands[..n]).s)
  {
    hide Joint, Rank, CoupledFrom, AtRest, Served;
    if n': nat :| n' <= |envs| && AtRest(CoupledFrom(j, envs[..n'], nands[..n']).s) {
      n := n';
    } else {
      StretchesLower(j, envs, nands, stretches, |stretches|);
      n := if stretches == [] then 0 else stretches[|stretches| - 1].to;
      RankFalls(j, envs[..n], nands[..n]);
      RankZero(CoupledFrom(j, envs[..n], nands[..n]));
    }
  }

  lemma RankZero(j: Coupled)
    requires Joint(j) && Rank(j.s) == 0
    ensures AtRest(j.s)
  {
    hide Joint, Rank, Exhausted, Moves, Enabled;
    if !AtRest(j.s) {
      var c: CmdId :| j.s.loc[c] != InPool;
      JointInv(j);
      NeverStuck(j.s, c);
      var st :| Moves(j.s, st);
      MoveDrops(j.s, st);
    }
  }

  lemma MoveDrops(s: State, st: Step)
    requires Inv(s) && Moves(s, st)
    ensures Rank(s) > 0
  {
    hide Inv, Rank, Enabled;
    RankDrops(s, st);
  }

  // ---------------------------------------------------------------- a NAND that is never busy

  /** What a driver sees of a way that is never busy and whose operations have all succeeded. */
  const PROMPT: NW.Env := NW.Sight(false, true, 0xC1, 0xC1, 1, 0xffff_ffff, 0xffff_ffff)

  lemma PromptLook(step: nat)
    ensures NW.Answered(step, PROMPT) && NW.Issuable(PROMPT)
  {
    assert (0xC1 as bv32) & 1 != 0 && ((0xC1 as bv32) >> 1) & 0x60 == 0x60;
    assert (1 as bv32) & 1 != 0;
  }

  function PromptNands(n: nat): seq<NandEnvs> {
    seq(n, _ => seq(64, _ => PROMPT))
  }

  lemma {:induction false} PromptServes(j: Coupled, envs: seq<Env>)
    ensures AllAnswered(j, envs, PromptNands(|envs|))
    ensures forall w: WayId :: Takes(PromptNands(|envs|), w) == |envs|
    decreases |envs|
  {
    hide CoupledRound, NW.Answered, NW.Issuable;
    var nands := PromptNands(|envs|);
    if envs == [] {
    } else {
      assert nands[1..] == PromptNands(|envs| - 1);
      PromptServes(CoupledRound(j, envs[0], nands[0]), envs[1..]);
      forall w: WayId
        ensures NW.Answered(j.ways[w].step, nands[0][w]) && NW.Issuable(nands[0][w])
      {
        PromptLook(j.ways[w].step);
      }
    }
  }

  function PromptStretches(n: nat): (r: seq<Stretch>)
    ensures |r| == n
  {
    seq(n, i requires 0 <= i < n => Stretch(36 * i, 36 * i + 36))
  }

  lemma PromptLaid(n: nat, m: nat)
    requires 36 * n <= m
    ensures Laid(PromptStretches(n), m)
  {
  }

  lemma PromptFrom(j: Coupled, envs: seq<Env>) returns (n: nat)
    requires Joint(j) && NoArrivals(envs) && |envs| >= NW.MAX_LOOKS * Rank(j.s)
    ensures |PromptNands(|envs|)| == |envs|
    ensures n <= |envs| && AtRest(CoupledFrom(j, envs[..n], PromptNands(|envs|)[..n]).s)
  {
    hide Joint, Rank, CoupledFrom, AtRest, Served, Laid, PromptNands, PromptStretches;
    var nands, stretches := PromptNands(|envs|), PromptStretches(Rank(j.s));
    PromptSize(|envs|);
    PromptLaid(Rank(j.s), |envs|);
    forall k | 0 <= k < |stretches|
      ensures stretches[k].from <= stretches[k].to <= |envs| && Served(j, envs, nands, stretches[k])
    {
      PromptStretchAt(Rank(j.s), k);
      PromptStretch(j, envs, stretches[k]);
    }
    n := RoundsDrain(j, envs, nands, stretches);
  }

  lemma PromptStretchAt(n: nat, k: nat)
    requires k < n
    ensures PromptStretches(n)[k] == Stretch(36 * k, 36 * k + 36)
  {
  }

  /** So such NAND drains the pipeline in a bounded number of rounds, whatever state the main loop had
      got into. */
  lemma PromptDrain(envs0: seq<Env>, nands0: seq<NandEnvs>, envs: seq<Env>) returns (n: nat)
    requires |nands0| == |envs0| && ValidEnvs(envs0) && NoArrivals(envs)
    requires |envs| >= NW.MAX_LOOKS * MAX_RANK
    ensures n <= |envs| && AtRest(CoupledRounds(envs0 + envs[..n], nands0 + PromptNands(|envs|)[..n]).s)
  {
    hide Joint, Rank, CoupledFrom, CoupledRounds, AtRest, PromptNands;
    RoundsSendInOrder(envs0, nands0, 0);
    var j := CoupledRounds(envs0, nands0);
    JointInv(j);
    RankBounded(j.s);
    n := PromptFrom(j, envs);
    RoundsThen(envs0, nands0, envs[..n], PromptNands(|envs|)[..n]);
  }

  lemma PromptSize(n: nat)
    ensures |PromptNands(n)| == n
  {
  }

  lemma PromptStretch(j: Coupled, envs: seq<Env>, x: Stretch)
    requires x.from + 36 == x.to <= |envs|
    ensures |PromptNands(|envs|)| == |envs| && Served(j, envs, PromptNands(|envs|), x)
  {
    hide CoupledFrom, Takes, AllAnswered;
    var nands := PromptNands(|envs|);
    assert nands[x.from..x.to] == PromptNands(36);
    PromptServes(CoupledFrom(j, envs[..x.from], nands[..x.from]), envs[x.from..x.to]);
  }

  /** Rounds of the main loop, and then more of them. */
  lemma {:induction false} RoundsThen(envs0: seq<Env>, nands0: seq<NandEnvs>, envs: seq<Env>, nands: seq<NandEnvs>)
    requires |nands0| == |envs0| && |nands| == |envs|
    ensures CoupledRounds(envs0 + envs, nands0 + nands) == CoupledFrom(CoupledRounds(envs0, nands0), envs, nands)
    decreases |envs|
  {
    hide CoupledRound, Begin;
    if envs == [] {
      assert envs0 + envs == envs0 && nands0 + nands == nands0;
    } else {
      var e0, n0 := envs0 + [envs[0]], nands0 + [nands[0]];
      assert e0[..|envs0|] == envs0 && n0[..|envs0|] == nands0;
      RoundsThen(e0, n0, envs[1..], nands[1..]);
      assert e0 + envs[1..] == envs0 + envs && n0 + nands[1..] == nands0 + nands;
    }
  }
}
