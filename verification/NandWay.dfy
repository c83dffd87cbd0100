/** The NAND driver of one way (fil_nand.c): three polled protocols, for erase, program and read,
    that share one step cell and one retry count. */
module NandWay {
  import opened Base
  import opened NandAddress
  import opened Model

  const FIL_READ_RETRY: nat := 5

  /** What the driver can see in one pass: the controller's busy flag, the way's ready bit, the status
      word when it reads it first and again, the completion word and the two error words in memory. */
  datatype Sight = Sight(controllerBusy: bool, wayReady: bool, status: bv32, again: bv32, completion: bv32,
                         error0: bv32, error1: bv32)

  /** The status word may be written at any moment, but once it has the report bit it is final: the
      driver clears it before it asks for the next one. */
  type Env = e: Sight | ReportDone(e.status) ==> e.again == e.status witness NO_SIGHT

  const NO_SIGHT: Sight := Sight(false, false, 0, 0, 0, 0, 0)

  datatype DevCmd =
    | EraseBlock(row: nat)
    | ProgramPage(row: nat, buf: BufId)
    | StatusCheck
    | ReadTrigger(row: nat)
    | ReadTransfer(row: nat, buf: BufId)
    | RawTransfer(buf: BufId)

  predicate Issuable(env: Env) {
    !env.controllerBusy && env.wayReady
  }

  // ---------------------------------------------------------------- status words

  predicate ReportDone(status: bv32) {
    status & 1 != 0
  }

  function EliminateReportDone(status: bv32): bv32 {
    status >> 1
  }

  predicate RequestComplete(status: bv32) {
    status & 0x60 == 0x60
  }

  predicate RequestFail(status: bv32) {
    status & 3 != 0
  }

  /** _IsCmdDone. */
  predicate CmdDone(status: bv32) {
    ReportDone(status) && RequestComplete(EliminateReportDone(status))
  }

  /** _IsCmdSuccess, which asserts that the request is complete. */
  predicate CmdSuccess(status: bv32)
    requires RequestComplete(EliminateReportDone(status))
  {
    !RequestFail(EliminateReportDone(status))
  }

  /** _IsRequestComplete, used by the erase protocol on the unshifted word. */
  predicate AnyCompleteBit(status: bv32) {
    status & 0xC0 != 0
  }

  predicate TransferComplete(completion: bv32) {
    completion & 1 != 0
  }

  /** _GetTransferResult returning ERROR_INFO_FAIL. */
  predicate TransferFailed(error0: bv32, error1: bv32) {
    !(error0 & 0x1000_0000 != 0 && error0 & 0x0100_0000 != 0 && error1 == 0xffff_ffff)
  }

  /** What makes an erase stall: the word read again has bit 6 or 7, and the word read first does not
      have both of them together with bit 0. */
  predicate Stalling(env: Env) {
    env.again & 0xC0 != 0 && !(env.status & 1 == 1 && env.status & 0xC0 == 0xC0)
  }

  /** It is what makes the erase protocol neither finish nor ask again. */
  lemma EraseStallWords(env: Env)
    ensures !CmdDone(env.status) && AnyCompleteBit(env.again) <==> Stalling(env)
  {
    var status := env.status;
    assert (status >> 1) & 0x60 == 0x60 <==> status & 0xC0 == 0xC0;
    assert status & 1 != 0 <==> status & 1 == 1;
  }

  // ---------------------------------------------------------------- the protocols, as tables

  const NONE: nat := 0
  const CHECK_ISSUABLE: nat := 1
  const ISSUE: nat := 2
  const WAIT_DONE: nat := 3
  const ISSUE_STATUS: nat := 4
  const WAIT_STATUS: nat := 5
  const CHECK_STATUS: nat := 6
  const WRITE_DONE: nat := 7             // NAND_PGM_STEP_DONE and NAND_ERASE_STEP_DONE
  const CHECK_TRANSFER_ISSUABLE: nat := 7
  const ISSUE_TRANSFER: nat := 8
  const WAIT_TRANSFER: nat := 9
  const CHECK_TRANSFER: nat := 10
  const READ_DONE: nat := 11

  /** What one call leaves behind. */
  datatype Outcome = Outcome(step: nat, retry: nat, issued: seq<DevCmd>, done: bool)

  predicate ValidOp(op: Op) {
    op.addr.block < TOTAL_BLOCKS_PER_DIE && op.addr.page < PAGES_PER_MLC_BLOCK
  }

  function Row(op: Op): nat
    requires ValidOp(op)
  {
    RowAddress(op.addr.block, if op.kind == EraseOp then 0 else op.addr.page)
  }

  /** The command that starts an operation. */
  function Opening(op: Op): DevCmd
    requires ValidOp(op)
  {
    match op.kind
    case EraseOp => EraseBlock(Row(op))
    case ProgramOp => ProgramPage(Row(op), op.buf)
    case ReadOp => ReadTrigger(Row(op))
  }

  /** Start, then ask for the status, each when the way will take a command; otherwise stay. */
  function Front(op: Op, step: nat, retry: nat, env: Env): Outcome
    requires ValidOp(op) && step in {NONE, CHECK_ISSUABLE, WAIT_DONE}
  {
    if step == WAIT_DONE then
      if Issuable(env) then Outcome(WAIT_STATUS, retry, [StatusCheck], false) else Outcome(WAIT_DONE, retry, [], false)
    else
      if Issuable(env) then Outcome(WAIT_DONE, retry, [Opening(op)], false) else Outcome(CHECK_ISSUABLE, retry, [], false)
  }

  predicate WriteStep(step: nat) {
    step in {NONE, CHECK_ISSUABLE, WAIT_DONE, WAIT_STATUS, CHECK_STATUS}
  }

  predicate ReadStep(step: nat) {
    step in {NONE, CHECK_ISSUABLE, WAIT_DONE, WAIT_STATUS, CHECK_TRANSFER_ISSUABLE, WAIT_TRANSFER, CHECK_TRANSFER}
  }

  function EraseCall(op: Op, step: nat, retry: nat, env: Env): Outcome
    requires ValidOp(op) && WriteStep(step)
  {
    if step in {NONE, CHECK_ISSUABLE, WAIT_DONE} then Front(op, step, retry, env)
    else if step == WAIT_STATUS && !env.wayReady then Outcome(WAIT_STATUS, retry, [], false)
    else if CmdDone(env.status) then Outcome(NONE, retry, [], true)
    else if AnyCompleteBit(env.again) then Outcome(CHECK_STATUS, retry, [], false)
    else Outcome(WAIT_DONE, retry, [], false)
  }

  function ProgramCall(op: Op, step: nat, retry: nat, env: Env): Outcome
    requires ValidOp(op) && WriteStep(step)
  {
    if step in {NONE, CHECK_ISSUABLE, WAIT_DONE} then Front(op, step, retry, env)
    else if step == WAIT_STATUS && !env.wayReady then Outcome(WAIT_STATUS, retry, [], false)
    else if CmdDone(env.status) then Outcome(NONE, retry, [], true)
    else if ReportDone(env.status) then Outcome(WAIT_DONE, retry, [], false)
    else Outcome(CHECK_STATUS, retry, [], false)
  }

  /** With ECC off the page is transferred raw, from wherever the trigger read it. */
  function Transfer(op: Op, ecc: bool): DevCmd
    requires ValidOp(op)
  {
    if ecc then ReadTransfer(Row(op), op.buf) else RawTransfer(op.buf)
  }

  /** A failed attempt: try again from the start, or give up. */
  function Failed(retry: nat): Outcome {
    if retry + 1 > FIL_READ_RETRY then Outcome(NONE, 0, [], true) else Outcome(NONE, retry + 1, [], false)
  }

  function ReadCall(op: Op, ecc: bool, step: nat, retry: nat, env: Env): Outcome
    requires ValidOp(op) && ReadStep(step)
  {
    if step in {NONE, CHECK_ISSUABLE, WAIT_DONE} then Front(op, step, retry, env)
    else if step == WAIT_STATUS then
      if !env.wayReady then Outcome(WAIT_STATUS, retry, [], false)
      else if !CmdDone(env.status) then Outcome(WAIT_DONE, retry, [], false)
      else if CmdSuccess(env.again) then Outcome(CHECK_TRANSFER_ISSUABLE, retry, [], false)
      else Failed(retry)
    else if step == CHECK_TRANSFER_ISSUABLE then Outcome(WAIT_TRANSFER, retry, [Transfer(op, ecc)], false)
    else if step == WAIT_TRANSFER then
      if Issuable(env) then Outcome(CHECK_TRANSFER, retry, [], false) else Outcome(WAIT_TRANSFER, retry, [], false)
    else if !TransferComplete(env.completion) then Outcome(WAIT_TRANSFER, retry, [], false)
    else if ecc && TransferFailed(env.error0, env.error1) then Failed(retry)
    else Outcome(NONE, 0, [], true)
  }

  predicate StepFor(kind: OpKind, step: nat) {
    if kind == ReadOp then ReadStep(step) else WriteStep(step)
  }

  /** One pass of the driver for an operation; ecc matters to a read only. */
  function Pass(op: Op, ecc: bool, step: nat, retry: nat, env: Env): (o: Outcome)
    requires ValidOp(op) && StepFor(op.kind, step)
    ensures StepFor(op.kind, o.step)
  {
    match op.kind
    case EraseOp => EraseCall(op, step, retry, env)
    case ProgramOp => ProgramCall(op, step, retry, env)
    case ReadOp => ReadCall(op, ecc, step, retry, env)
  }

  /** The call fil.c makes: one pass, ECC on. */
  function Call(op: Op, step: nat, retry: nat, env: Env): (o: Outcome)
    requires ValidOp(op) && StepFor(op.kind, step)
    ensures StepFor(op.kind, o.step)
  {
    Pass(op, true, step, retry, env)
  }

  /** Passes until one finishes the operation, as with bSync: envs is what each pass sees. */
  function Passes(op: Op, ecc: bool, step: nat, retry: nat, envs: seq<Env>): (o: Outcome)
    requires ValidOp(op) && StepFor(op.kind, step)
    ensures StepFor(op.kind, o.step)
  {
    if envs == [] then Outcome(step, retry, [], false)
    else
      var n := |envs| - 1;
      var o := Passes(op, ecc, step, retry, envs[..n]);
      if o.done then o
      else
        var p := Pass(op, ecc, o.step, o.retry, envs[n]);
        Outcome(p.step, p.retry, o.issued + p.issued, p.done)
  }

  // ---------------------------------------------------------------- scripts

  function Triggers(script: seq<DevCmd>): nat {
    if script == [] then 0
    else Triggers(script[..|script| - 1]) + (if script[|script| - 1].ReadTrigger? then 1 else 0)
  }

  function Last(script: seq<DevCmd>): DevCmd
    requires script != []
  {
    script[|script| - 1]
  }

  /** The only successions in the script of a read: trigger, statuses, at most one transfer, and
      then another trigger. */
  predicate Follows(a: DevCmd, b: DevCmd) {
    match a
    case ReadTrigger(_) => b.StatusCheck?
    case StatusCheck => true
    case ReadTransfer(_, _) => b.ReadTrigger?
    case _ => false
  }

  /** The commands issued so far for an operation: its opening, and statuses; for a read, attempts. */
  ghost predicate SoFar(op: Op, script: seq<DevCmd>)
    requires ValidOp(op)
  {
    && (script != [] ==> script[0] == Opening(op))
    && if op.kind == ReadOp then
         && (forall k :: 0 <= k < |script| ==> script[k] in {Opening(op), StatusCheck, ReadTransfer(Row(op), op.buf)})
         && (forall k :: 0 < k < |script| ==> Follows(script[k - 1], script[k]))
       else
         forall k :: 0 < k < |script| ==> script[k] == StatusCheck
  }

  /** A finished operation: the opening and at least one status; for a read, one to six attempts,
      the last of which transferred the page unless all six were used up. */
  ghost predicate Whole(op: Op, script: seq<DevCmd>)
    requires ValidOp(op)
  {
    && SoFar(op, script) && |script| >= 2 && !Last(script).ReadTrigger?
    && (op.kind == ReadOp ==>
          1 <= Triggers(script) <= FIL_READ_RETRY + 1
          && (Last(script).ReadTransfer? || Triggers(script) == FIL_READ_RETRY + 1))
  }

  /** How step, retry count and commands issued so far belong together. */
  ghost predicate InProgress(op: Op, step: nat, retry: nat, script: seq<DevCmd>) {
    && ValidOp(op) && StepFor(op.kind, step) && SoFar(op, script)
    && (step == WAIT_DONE ==> script != [] && !Last(script).ReadTransfer?)
    && (step in {WAIT_STATUS, CHECK_STATUS} ==> |script| >= 2 && Last(script) == StatusCheck)
    && if op.kind == ReadOp then
         && retry <= FIL_READ_RETRY
         && Triggers(script) == (if step in {NONE, CHECK_ISSUABLE} then retry else retry + 1)
         && (step in {NONE, CHECK_ISSUABLE} && script != [] ==> |script| >= 2 && !Last(script).ReadTrigger?)
         && (step == CHECK_TRANSFER_ISSUABLE ==> |script| >= 2 && Last(script) == StatusCheck)
         && (step in {WAIT_TRANSFER, CHECK_TRANSFER} ==> |script| >= 2 && Last(script).ReadTransfer?)
       else
         && retry == 0
         && (step in {NONE, CHECK_ISSUABLE} ==> script == [])
  }

  lemma SoFarPush(op: Op, script: seq<DevCmd>, c: DevCmd)
    requires ValidOp(op) && SoFar(op, script)
    requires script == [] ==> c == Opening(op)
    requires script != [] ==>
               if op.kind == ReadOp then c in {Opening(op), StatusCheck, ReadTransfer(Row(op), op.buf)} && Follows(Last(script), c)
               else c == StatusCheck
    ensures SoFar(op, script + [c])
    ensures Triggers(script + [c]) == Triggers(script) + (if c.ReadTrigger? then 1 else 0)
    ensures Last(script + [c]) == c
  {
    assert (script + [c])[..|script|] == script;
  }

  lemma LastOfRead(op: Op, script: seq<DevCmd>)
    requires ValidOp(op) && op.kind == ReadOp && SoFar(op, script) && script != []
    ensures Last(script) in {Opening(op), StatusCheck, ReadTransfer(Row(op), op.buf)}
  {
  }

  /** What one call does to the script, for CallKeeps. */
  ghost predicate Kept(op: Op, script: seq<DevCmd>, o: Outcome, env: Env) {
    && |o.issued| <= 1
    && (o.issued != [] ==> (!env.controllerBusy && env.wayReady) || o.issued[0].ReadTransfer?)
    && (!o.done ==> InProgress(op, o.step, o.retry, script + o.issued))
    && (o.done ==> o.step == NONE && o.retry == 0 && ValidOp(op) && Whole(op, script + o.issued))
  }

  /** The front half is common to the three protocols. */
  lemma FrontKeeps(op: Op, step: nat, retry: nat, script: seq<DevCmd>, env: Env)
    requires InProgress(op, step, retry, script) && step in {NONE, CHECK_ISSUABLE, WAIT_DONE}
    ensures Kept(op, script, Front(op, step, retry, env), env)
  {
    hide SoFar, Row, Triggers;
    var o := Front(op, step, retry, env);
    if o.issued == [] {
      assert script + o.issued == script;
    } else {
      if op.kind == ReadOp && script != [] {
        LastOfRead(op, script);
      }
      SoFarPush(op, script, o.issued[0]);
    }
  }

  lemma WriteCallKeeps(op: Op, step: nat, retry: nat, script: seq<DevCmd>, env: Env)
    requires InProgress(op, step, retry, script) && op.kind != ReadOp
    ensures Kept(op, script, Call(op, step, retry, env), env)
  {
    hide Front, CmdDone, AnyCompleteBit, ReportDone, SoFar, Row, Triggers;
    if step in {NONE, CHECK_ISSUABLE, WAIT_DONE} {
      FrontKeeps(op, step, retry, script, env);
    } else {
      assert script + [] == script;
    }
  }

  lemma ReadCallKeeps(op: Op, step: nat, retry: nat, script: seq<DevCmd>, env: Env)
    requires InProgress(op, step, retry, script) && op.kind == ReadOp
    ensures Kept(op, script, Call(op, step, retry, env), env)
  {
    hide Front, CmdDone, CmdSuccess, TransferComplete, TransferFailed, SoFar, Row, Triggers;
    if step in {NONE, CHECK_ISSUABLE, WAIT_DONE} {
      FrontKeeps(op, step, retry, script, env);
    } else if step == CHECK_TRANSFER_ISSUABLE {
      SoFarPush(op, script, ReadTransfer(Row(op), op.buf));
    } else {
      assert script + [] == script;
    }
  }

  /** One call keeps step, retry count and script together, and finishes only whole scripts. It
      issues at most one command, and except for a transfer only when it saw the way take one. */
  lemma CallKeeps(op: Op, step: nat, retry: nat, script: seq<DevCmd>, env: Env)
    requires InProgress(op, step, retry, script)
    ensures Kept(op, script, Call(op, step, retry, env), env)
  {
    if op.kind == ReadOp {
      ReadCallKeeps(op, step, retry, script, env);
    } else {
      WriteCallKeeps(op, step, retry, script, env);
    }
  }

  // ---------------------------------------------------------------- progress

  /** The device has answered by the time the driver looks for the answer: a status word that is read
      reports completion, a completion word that is read is set. Whether it reports success is open. */
  predicate Answered(step: nat, env: Env) {
    && (step == CHECK_STATUS || (step == WAIT_STATUS && env.wayReady) ==> CmdDone(env.status))
    && (step == CHECK_TRANSFER ==> TransferComplete(env.completion))
  }

  /** How often the way must be found to take a command until the operation is finished; for a read,
      with all attempts it has left. */
  function LooksLeft(kind: OpKind, step: nat, retry: nat): nat {
    if kind == ReadOp then
      (if retry <= FIL_READ_RETRY then 6 * (FIL_READ_RETRY - retry) else 0)
      + (if step == WAIT_DONE then 5 else if step == WAIT_STATUS then 4 else if step == CHECK_TRANSFER_ISSUABLE then 3
         else if step == WAIT_TRANSFER then 2 else if step == CHECK_TRANSFER then 1 else 6)
    else
      if step == WAIT_DONE then 2 else if step in {WAIT_STATUS, CHECK_STATUS} then 1 else 3
  }

  const MAX_LOOKS: nat := 36

  /** A call that finds an answer where it looks for one never loses ground, and gains some when the
      way takes commands: also a failed read gets nearer to its last attempt. */
  lemma LookGains(op: Op, step: nat, retry: nat, script: seq<DevCmd>, env: Env)
    requires InProgress(op, step, retry, script) && Answered(step, env)
    ensures var o := Call(op, step, retry, env);
            !o.done ==> LooksLeft(op.kind, o.step, o.retry) + (if Issuable(env) then 1 else 0) <= LooksLeft(op.kind, step, retry)
  {
    hide SoFar, Triggers, Row, ReportDone, RequestComplete, RequestFail, TransferComplete, TransferFailed, AnyCompleteBit;
  }

  // ---------------------------------------------------------------- synchronous calls

  /** One more pass after some that have issued o.issued. */
  lemma PassKeeps(op: Op, script: seq<DevCmd>, o: Outcome, env: Env)
    requires InProgress(op, o.step, o.retry, script + o.issued)
    ensures ValidOp(op) && StepFor(op.kind, o.step)
    ensures var p := Pass(op, true, o.step, o.retry, env); var all := script + (o.issued + p.issued);
            if p.done then p.step == NONE && p.retry == 0 && Whole(op, all) else InProgress(op, p.step, p.retry, all)
  {
    hide SoFar, Row, Triggers, Pass, Whole;
    CallKeeps(op, o.step, o.retry, script + o.issued, env);
    var p := Pass(op, true, o.step, o.retry, env);
    assert script + o.issued + p.issued == script + (o.issued + p.issued);
  }

  /** Passes keep step, retry count and script together; the pass that finishes the operation finishes
      a whole script. */
  lemma {:induction false} PassesKeep(op: Op, step: nat, retry: nat, script: seq<DevCmd>, envs: seq<Env>)
    requires InProgress(op, step, retry, script)
    ensures var o := Passes(op, true, step, retry, envs);
            if o.done then o.step == NONE && o.retry == 0 && Whole(op, script + o.issued)
            else InProgress(op, o.step, o.retry, script + o.issued)
    decreases |envs|
  {
    hide InProgress, Whole, Pass, ValidOp, StepFor;
    Callable(op, step, retry, script);
    if envs == [] {
      assert script + [] == script;
    } else {
      var n := |envs| - 1;
      PassesKeep(op, step, retry, script, envs[..n]);
      var o := Passes(op, true, step, retry, envs[..n]);
      if !o.done {
        PassKeeps(op, script, o, envs[n]);
      }
    }
  }

  lemma Callable(op: Op, step: nat, retry: nat, script: seq<DevCmd>)
    requires InProgress(op, step, retry, script)
    ensures ValidOp(op) && StepFor(op.kind, step)
  {
  }

  lemma PassesPush(op: Op, ecc: bool, step: nat, retry: nat, envs: seq<Env>, n: nat)
    requires ValidOp(op) && StepFor(op.kind, step) && n < |envs|
    ensures var o := Passes(op, ecc, step, retry, envs[..n]);
            Passes(op, ecc, step, retry, envs[..n + 1]) ==
            if o.done then o
            else var p := Pass(op, ecc, o.step, o.retry, envs[n]); Outcome(p.step, p.retry, o.issued + p.issued, p.done)
    ensures n == 0 ==> Passes(op, ecc, step, retry, envs[..1]) == Pass(op, ecc, step, retry, envs[0])
  {
    hide Pass;
    assert envs[..n + 1][..n] == envs[..n];
    if n == 0 {
      var p := Pass(op, ecc, step, retry, envs[0]);
      assert [] + p.issued == p.issued;
    }
  }

  /** A finished call makes no further pass. */
  lemma {:induction false} PassesStop(op: Op, ecc: bool, step: nat, retry: nat, envs: seq<Env>, n: nat)
    requires ValidOp(op) && StepFor(op.kind, step) && n <= |envs|
    requires Passes(op, ecc, step, retry, envs[..n]).done
    ensures Passes(op, ecc, step, retry, envs) == Passes(op, ecc, step, retry, envs[..n])
    decreases |envs|
  {
    hide Pass, StepFor, ValidOp;
    if n == |envs| {
      assert envs[..n] == envs;
    } else {
      var m := |envs| - 1;
      assert envs[..m][..n] == envs[..n];
      PassesStop(op, ecc, step, retry, envs[..m], n);
    }
  }

  /** Without ECC a read goes as it does with ECC when every check passes, except that the page is
      transferred raw. */
  lemma RawRead(op: Op, step: nat, retry: nat, env: Env)
    requires ValidOp(op) && op.kind == ReadOp && ReadStep(step)
    ensures var raw := Pass(op, false, step, retry, env);
            var o := Pass(op, true, step, retry, env.(error0 := 0xffff_ffff, error1 := 0xffff_ffff));
            && raw.step == o.step && raw.retry == o.retry && raw.done == o.done
            && raw.issued == if o.issued == [ReadTransfer(Row(op), op.buf)] then [RawTransfer(op.buf)] else o.issued
  {
    hide CmdDone, CmdSuccess, TransferComplete, Row;
  }

  // ---------------------------------------------------------------- a way over a whole run

  /** The driver's two variables, the operations of the way's list, and the history: all operations
      ever asked for, the script of each finished one, the script of the one in progress, the trace of
      the commands the device has received, and what the driver has seen for each finished operation
      and for the one in progress. */
  datatype Way = Way(step: nat, retry: nat, queue: seq<Op>,
                     asked: seq<Op>, scripts: seq<seq<DevCmd>>, script: seq<DevCmd>, trace: seq<DevCmd>,
                     seens: seq<seq<Env>>, looks: seq<Env>)

  const FRESH_WAY := Way(NONE, 0, [], [], [], [], [], [], [])

  /** fil_add_req appends operations; fil_process_nand calls the driver for the first one. */
  datatype Event = Asked(op: Op) | Polled(env: Env)

  function Flat(scripts: seq<seq<DevCmd>>): seq<DevCmd> {
    if scripts == [] then [] else Flat(scripts[..|scripts| - 1]) + scripts[|scripts| - 1]
  }

  ghost predicate Orderly(w: Way) {
    && |w.asked| == |w.scripts| + |w.queue| && w.queue == w.asked[|w.scripts|..]
    && (forall k :: 0 <= k < |w.asked| ==> ValidOp(w.asked[k]))
    && (forall k :: 0 <= k < |w.scripts| ==> Whole(w.asked[k], w.scripts[k]))
    && w.trace == Flat(w.scripts) + w.script
    && (w.queue == [] ==> w.step == NONE && w.retry == 0 && w.script == [])
    && (w.queue != [] ==> InProgress(w.queue[0], w.step, w.retry, w.script))
  }

  /** The passes that see looks, and no fewer, finish the operation with that script. */
  ghost predicate Watched(op: Op, script: seq<DevCmd>, looks: seq<Env>)
    requires ValidOp(op)
  {
    && looks != [] && Passes(op, true, NONE, 0, looks) == Outcome(NONE, 0, script, true)
    && !Passes(op, true, NONE, 0, looks[..|looks| - 1]).done
  }

  /** What was seen explains what was done. */
  ghost predicate Seen(w: Way) {
    && |w.seens| == |w.scripts| <= |w.asked|
    && (forall k :: 0 <= k < |w.scripts| ==> ValidOp(w.asked[k]) && Watched(w.asked[k], w.scripts[k], w.seens[k]))
    && (w.queue == [] ==> w.looks == [])
    && (w.queue != [] ==>
          ValidOp(w.queue[0]) && Passes(w.queue[0], true, NONE, 0, w.looks) == Outcome(w.step, w.retry, w.script, false))
  }

  ghost predicate Good(w: Way) {
    Orderly(w) && Seen(w)
  }

  ghost predicate CanHappen(w: Way, e: Event) {
    match e
    case Asked(op) => ValidOp(op)
    case Polled(_) => w.queue != [] ==> ValidOp(w.queue[0]) && StepFor(w.queue[0].kind, w.step)
  }

  ghost function Happen(w: Way, e: Event): Way
    requires CanHappen(w, e)
  {
    match e
    case Asked(op) => w.(queue := w.queue + [op], asked := w.asked + [op])
    case Polled(env) =>
      if w.queue == [] then w
      else
        var o := Call(w.queue[0], w.step, w.retry, env);
        var t := w.(step := o.step, retry := o.retry, trace := w.trace + o.issued);
        if o.done then
          t.(queue := w.queue[1..], scripts := w.scripts + [w.script + o.issued], script := [],
             seens := w.seens + [w.looks + [env]], looks := [])
        else t.(script := w.script + o.issued, looks := w.looks + [env])
  }

  lemma FlatPush(scripts: seq<seq<DevCmd>>, script: seq<DevCmd>)
    ensures Flat(scripts + [script]) == Flat(scripts) + script
  {
    assert (scripts + [script])[..|scripts|] == scripts;
  }

  lemma PollKeeps(w: Way, env: Env)
    requires Good(w)
    ensures CanHappen(w, Polled(env)) && Good(Happen(w, Polled(env)))
  {
    hide Orderly, Seen, Happen, Call;
    PollOrderly(w, env);
    PollSeen(w, env);
  }

  lemma PollSeen(w: Way, env: Env)
    requires Orderly(w) && Seen(w)
    ensures CanHappen(w, Polled(env)) && Seen(Happen(w, Polled(env)))
  {
    hide InProgress, Whole, Pass;
    if w.queue != [] {
      var op, looks := w.queue[0], w.looks + [env];
      PollFinished(w, env);
      PassesPush(op, true, NONE, 0, looks, |w.looks|);
      assert looks[..|w.looks|] == w.looks && looks[..|w.looks| + 1] == looks;
      var t := Happen(w, Polled(env));
      if Call(op, w.step, w.retry, env).done {
        SeenFinished(w, op, env, t);
      }
    }
  }

  lemma SeenFinished(w: Way, op: Op, env: Env, t: Way)
    requires Orderly(w) && Seen(w) && w.queue != [] && op == w.queue[0] && t.queue == w.queue[1..]
    requires t.asked == w.asked && |t.scripts| == |w.scripts| + 1 && t.scripts[..|w.scripts|] == w.scripts
    requires t.seens == w.seens + [w.looks + [env]] && t.looks == [] && t.step == NONE && t.retry == 0 && t.script == []
    requires ValidOp(op) && Watched(op, t.scripts[|w.scripts|], w.looks + [env])
    ensures Seen(t)
  {
    hide Watched, InProgress, Whole, Passes;
    var n := |w.scripts|;
    assert op == w.asked[n];
    forall k | 0 <= k < |t.scripts|
      ensures ValidOp(t.asked[k]) && Watched(t.asked[k], t.scripts[k], t.seens[k])
    {
      if k < n {
        assert t.scripts[k] == t.scripts[..n][k];
      }
    }
    if t.queue != [] {
      NothingSeen(t.queue[0]);
    }
  }

  lemma NothingSeen(op: Op)
    requires ValidOp(op)
    ensures Passes(op, true, NONE, 0, []) == Outcome(NONE, 0, [], false)
  {
  }

  lemma PollOrderly(w: Way, env: Env)
    requires Orderly(w)
    ensures CanHappen(w, Polled(env)) && Orderly(Happen(w, Polled(env)))
  {
    hide Call, Front, Kept, Whole, Issuable, SoFar, Triggers;
    if w.queue != [] {
      var op := w.queue[0];
      PollFinished(w, env);
      var o := Call(op, w.step, w.retry, env);
      FlatPush(w.scripts, w.script + o.issued);
      var t := Happen(w, Polled(env));
      if o.done {
        assert t.queue == t.asked[|t.scripts|..];
        if t.queue != [] {
          FreshStart(t.queue[0]);
        }
      }
    }
  }

  lemma PollFinished(w: Way, env: Env)
    requires Orderly(w) && w.queue != []
    ensures ValidOp(w.queue[0]) && StepFor(w.queue[0].kind, w.step)
    ensures var op := w.queue[0]; var o := Call(op, w.step, w.retry, env); var script := w.script + o.issued;
            && (o.done ==> o.step == NONE && o.retry == 0 && Whole(op, script))
            && (!o.done ==> InProgress(op, o.step, o.retry, script))
  {
    hide Call, Whole, SoFar, Triggers;
    CallKeeps(w.queue[0], w.step, w.retry, w.script, env);
  }

  lemma HeadCallable(w: Way)
    requires Good(w) && w.queue != []
    ensures ValidOp(w.queue[0]) && StepFor(w.queue[0].kind, w.step)
  {
  }

  lemma FreshStart(op: Op)
    requires ValidOp(op)
    ensures InProgress(op, NONE, 0, [])
  {
  }

  lemma AskKeeps(w: Way, op: Op)
    requires Good(w) && ValidOp(op)
    ensures CanHappen(w, Asked(op)) && Good(Happen(w, Asked(op)))
  {
    hide Whole, InProgress, Passes, Watched;
    FreshStart(op);
    NothingSeen(op);
    var t := Happen(w, Asked(op));
    assert t.queue == t.asked[|t.scripts|..];
    assert t.queue[0] == if w.queue == [] then op else w.queue[0];
  }

  /** Several operations are added to the list. */
  ghost function Extended(w: Way, ops: seq<Op>): Way {
    w.(queue := w.queue + ops, asked := w.asked + ops)
  }

  lemma {:induction false} ExtendedGood(w: Way, ops: seq<Op>)
    requires Good(w) && forall op :: op in ops ==> ValidOp(op)
    ensures Good(Extended(w, ops))
    decreases ops
  {
    hide Good, ValidOp;
    if ops == [] {
      assert w.queue + [] == w.queue && w.asked + [] == w.asked;
    } else {
      var n := |ops| - 1;
      ExtendedGood(w, ops[..n]);
      AskKeeps(Extended(w, ops[..n]), ops[n]);
      assert ops == ops[..n] + [ops[n]];
      assert w.queue + ops == w.queue + ops[..n] + [ops[n]] && w.asked + ops == w.asked + ops[..n] + [ops[n]];
    }
  }

  ghost predicate Possible(events: seq<Event>) {
    forall k :: 0 <= k < |events| && events[k].Asked? ==> ValidOp(events[k].op)
  }

  /** Every run of a way, from NAND_Initialize: each call finds the shared cell at a step of its own
      protocol, and the way stays good. */
  lemma {:induction false} EveryRun(events: seq<Event>, ways: seq<Way>)
    requires Possible(events) && |ways| == |events| + 1
    requires ways[0] == FRESH_WAY
    requires forall k :: 0 <= k < |events| && CanHappen(ways[k], events[k]) ==> ways[k + 1] == Happen(ways[k], events[k])
    ensures forall k :: 0 <= k < |events| ==> CanHappen(ways[k], events[k])
    ensures forall k :: 0 <= k < |ways| ==> Good(ways[k])
    decreases |events|
  {
    hide Good, CanHappen, Happen;
    if events == [] {
      StartGood();
    } else {
      var n := |events| - 1;
      EveryRun(events[..n], ways[..n + 1]);
      forall k | 0 <= k < n
        ensures CanHappen(ways[k], events[k]) && Good(ways[k])
      {
        assert ways[k] == ways[..n + 1][k] && events[k] == events[..n][k];
      }
      assert Good(ways[..n + 1][n]);
      if events[n].Asked? {
        AskKeeps(ways[n], events[n].op);
      } else {
        PollKeeps(ways[n], events[n].env);
      }
    }
  }

  lemma StartGood()
    ensures Good(FRESH_WAY)
  {
  }

  /** What holds of a way in every reachable state, spelled out: the shared cell is in use only for
      the first operation of the list, with a step of that operation's own protocol; retries are
      counted only for a read, at most five; and what the device has received is the scripts of the
      finished operations, in the order they were asked for, followed by what the first operation of
      the list has issued so far. */
  lemma WayInvariant(w: Way)
    requires Good(w)
    ensures w.step != NONE || w.script != [] ==> w.queue != [] && StepFor(w.queue[0].kind, w.step)
    ensures w.retry != 0 ==> w.queue != [] && w.queue[0].kind == ReadOp && w.retry <= FIL_READ_RETRY
    ensures w.queue != [] ==> ValidOp(w.queue[0]) && SoFar(w.queue[0], w.script) && Triggers(w.script) <= FIL_READ_RETRY + 1
    ensures w.trace == Flat(w.scripts) + w.script
    ensures forall k :: 0 <= k < |w.scripts| ==> ValidOp(w.asked[k]) && Whole(w.asked[k], w.scripts[k])
  {
    hide Whole;
    if w.queue != [] && w.queue[0].kind != ReadOp {
      NoTriggers(w.queue[0], w.script);
    }
  }

  lemma {:induction false} NoTriggers(op: Op, script: seq<DevCmd>)
    requires ValidOp(op) && op.kind != ReadOp && SoFar(op, script)
    ensures Triggers(script) == 0
    decreases |script|
  {
    if script == [] {
    } else {
      NoTriggers(op, script[..|script| - 1]);
    }
  }

  /** Safety is all that is claimed of an erase. A pass that checks a status word leaves everything as
      it was, asking for no other word, exactly when the word is a stalling one. */
  lemma EraseStalls(op: Op, env: Env)
    requires ValidOp(op) && op.kind == EraseOp
    ensures EraseCall(op, CHECK_STATUS, 0, env) == Outcome(CHECK_STATUS, 0, [], false) <==> Stalling(env)
  {
    hide CmdDone, AnyCompleteBit, Stalling;
    EraseStallWords(env);
  }

  /** So a synchronous erase that checks a status word is still at that word, having issued nothing, if
      and only if every word it has seen since was a stalling one. */
  lemma {:induction false} EraseHangs(op: Op, envs: seq<Env>)
    requires ValidOp(op) && op.kind == EraseOp
    ensures var o := Passes(op, true, CHECK_STATUS, 0, envs);
            && (o == Outcome(CHECK_STATUS, 0, [], false) <==> forall k :: 0 <= k < |envs| ==> Stalling(envs[k]))
            && (o.issued == [] && !o.done ==> o.retry == 0 && o.step in {CHECK_STATUS, WAIT_DONE})
    decreases |envs|
  {
    hide Stalling, CmdDone, AnyCompleteBit;
    if envs == [] {
    } else {
      var m := |envs| - 1;
      EraseHangs(op, envs[..m]);
      EraseStalls(op, envs[m]);
      assert forall k :: 0 <= k < m ==> envs[..m][k] == envs[k];
    }
  }

  // ---------------------------------------------------------------- the C functions

  class Driver {
    // stWayStatus of the way; step is the union cell
    var step: nat
    var retry: nat
    // what the device has received
    ghost var trace: seq<DevCmd>
    // the way's list of operations and its history
    ghost var way: Way

    constructor ()
      ensures InOrder() && way == FRESH_WAY
    {
      step, retry, trace := NONE, 0, [];
      way := FRESH_WAY;
    }

    ghost predicate InOrder()
      reads this
    {
      Good(way) && way.step == step && way.retry == retry && way.trace == trace
    }

    ghost predicate Did(o: Outcome, done: bool, was: seq<DevCmd>)
      reads this`step, this`retry, this`trace
    {
      step == o.step && retry == o.retry && done == o.done && trace == was + o.issued
    }

    /** The switch of NAND_ProcessErase. */
    method ErasePass(op: Op, env: Env) returns (done: bool)
      requires ValidOp(op) && op.kind == EraseOp && WriteStep(step)
      modifies this`step, this`retry, this`trace
      ensures Did(EraseCall(op, old(step), old(retry), env), done, old(trace))
    {
      hide ReportDone, RequestComplete, AnyCompleteBit, Row;
      if step == NONE {
        step := CHECK_ISSUABLE;
      }
      if step == CHECK_ISSUABLE {
        if !Issuable(env) {
          return false;
        }
        step := ISSUE;
      }
      if step == ISSUE {
        trace := trace + [EraseBlock(Row(op))];
        step := WAIT_DONE;
        return false;
      }
      if step == WAIT_DONE {
        if !Issuable(env) {
          return false;
        }
        step := ISSUE_STATUS;
      }
      if step == ISSUE_STATUS {
        trace := trace + [StatusCheck];
        step := WAIT_STATUS;
        return false;
      }
      if step == WAIT_STATUS {
        if !env.wayReady {
          return false;
        }
        step := CHECK_STATUS;
      }
      if CmdDone(env.status) {
        // the assert of _IsCmdSuccess
        assert RequestComplete(EliminateReportDone(env.again));
        step := WRITE_DONE;
      } else if !AnyCompleteBit(env.again) {
        step := WAIT_DONE;
      }
      if step == WRITE_DONE {
        step := NONE;
        return true;
      }
      return false;
    }

    /** NAND_ProcessErase: with bSync it loops until the operation is finished. envs is what each pass would
        see; a synchronous call that has seen them all is still running. */
    method ProcessErase(op: Op, envs: seq<Env>, bSync: bool) returns (done: bool)
      requires ValidOp(op) && op.kind == EraseOp && WriteStep(step) && envs != []
      modifies this`step, this`retry, this`trace
      ensures Did(Passes(op, true, old(step), old(retry), if bSync then envs else envs[..1]), done, old(trace))
    {
      hide Passes, EraseCall, ProgramCall, ReadCall, WriteStep;
      ghost var step0, retry0 := step, retry;
      PassesPush(op, true, step0, retry0, envs, 0);
      done := ErasePass(op, envs[0]);
      var n := 1;
      while bSync && !done && n < |envs|
        invariant 1 <= n <= |envs| && (!bSync ==> n == 1)
        invariant Did(Passes(op, true, step0, retry0, envs[..n]), done, old(trace))
      {
        PassesPush(op, true, step0, retry0, envs, n);
        done := ErasePass(op, envs[n]);
        n := n + 1;
      }
      assert n == |envs| ==> envs[..n] == envs;
      if done {
        PassesStop(op, true, step0, retry0, envs, n);
      }
    }

    /** The switch of NAND_ProcessProgram. */
    method ProgramPass(op: Op, env: Env) returns (done: bool)
      requires ValidOp(op) && op.kind == ProgramOp && WriteStep(step)
      modifies this`step, this`retry, this`trace
      ensures Did(ProgramCall(op, old(step), old(retry), env), done, old(trace))
    {
      hide ReportDone, RequestComplete, Row;
      if step == NONE {
        step := CHECK_ISSUABLE;
      }
      if step == CHECK_ISSUABLE {
        if !Issuable(env) {
          return false;
        }
        step := ISSUE;
      }
      if step == ISSUE {
        trace := trace + [ProgramPage(Row(op), op.buf)];
        step := WAIT_DONE;
        return false;
      }
      if step == WAIT_DONE {
        if !Issuable(env) {
          return false;
        }
        step := ISSUE_STATUS;
      }
      if step == ISSUE_STATUS {
        trace := trace + [StatusCheck];
        step := WAIT_STATUS;
        return false;
      }
      if step == WAIT_STATUS {
        if !env.wayReady {
          return false;
        }
        step := CHECK_STATUS;
      }
      if ReportDone(env.status) {
        if RequestComplete(EliminateReportDone(env.again)) {
          step := WRITE_DONE;
        } else {
          step := WAIT_DONE;
        }
      }
      if step == WRITE_DONE {
        step := NONE;
        return true;
      }
      return false;
    }

    /** NAND_ProcessProgram: with bSync it loops until the operation is finished. envs is what each pass would
        see; a synchronous call that has seen them all is still running. */
    method ProcessProgram(op: Op, envs: seq<Env>, bSync: bool) returns (done: bool)
      requires ValidOp(op) && op.kind == ProgramOp && WriteStep(step) && envs != []
      modifies this`step, this`retry, this`trace
      ensures Did(Passes(op, true, old(step), old(retry), if bSync then envs else envs[..1]), done, old(trace))
    {
      hide Passes, EraseCall, ProgramCall, ReadCall, WriteStep;
      ghost var step0, retry0 := step, retry;
      PassesPush(op, true, step0, retry0, envs, 0);
      done := ProgramPass(op, envs[0]);
      var n := 1;
      while bSync && !done && n < |envs|
        invariant 1 <= n <= |envs| && (!bSync ==> n == 1)
        invariant Did(Passes(op, true, step0, retry0, envs[..n]), done, old(trace))
      {
        PassesPush(op, true, step0, retry0, envs, n);
        done := ProgramPass(op, envs[n]);
        n := n + 1;
      }
      assert n == |envs| ==> envs[..n] == envs;
      if done {
        PassesStop(op, true, step0, retry0, envs, n);
      }
    }

    /** One failed attempt: nRetry++ and the choice between another attempt and giving up. */
    method CountRetry()
      modifies this`step, this`retry
      ensures retry == old(retry) + 1 && step == if retry > FIL_READ_RETRY then READ_DONE else NONE
    {
      retry := retry + 1;
      if retry > FIL_READ_RETRY {
        step := READ_DONE;
      } else {
        step := NONE;
      }
    }

    /** The switch of NAND_ProcessRead. */
    method ReadSwitch(op: Op, ecc: bool, env: Env)
      requires ValidOp(op) && op.kind == ReadOp && ReadStep(step)
      modifies this`step, this`retry, this`trace
      ensures var o := ReadCall(op, ecc, old(step), old(retry), env);
              && trace == old(trace) + o.issued
              && (if o.done then step == READ_DONE else step == o.step && retry == o.retry && step != READ_DONE)
    {
      hide ReportDone, RequestComplete, RequestFail, TransferComplete, TransferFailed, Row;
      if step == NONE {
        step := CHECK_ISSUABLE;
      }
      if step == CHECK_ISSUABLE {
        if !Issuable(env) {
          return;
        }
        step := ISSUE;
      }
      if step == ISSUE {
        trace := trace + [ReadTrigger(Row(op))];
        step := WAIT_DONE;
        return;
      }
      if step == WAIT_DONE {
        if !Issuable(env) {
          return;
        }
        step := ISSUE_STATUS;
      }
      if step == ISSUE_STATUS {
        trace := trace + [StatusCheck];
        step := WAIT_STATUS;
        return;
      }
      if step == WAIT_STATUS {
        if !env.wayReady {
          return;
        }
        step := CHECK_STATUS;
      }
      if step == CHECK_STATUS {
        if CmdDone(env.status) {
          if !CmdSuccess(env.again) {
            CountRetry();
          } else {
            step := CHECK_TRANSFER_ISSUABLE;
          }
        } else {
          step := WAIT_DONE;
        }
        return;
      }
      if step == CHECK_TRANSFER_ISSUABLE {
        step := ISSUE_TRANSFER;
      }
      if step == ISSUE_TRANSFER {
        if ecc {
          trace := trace + [ReadTransfer(Row(op), op.buf)];
        } else {
          trace := trace + [RawTransfer(op.buf)];
        }
        step := WAIT_TRANSFER;
        return;
      }
      if step == WAIT_TRANSFER {
        if !Issuable(env) {
          return;
        }
        step := CHECK_TRANSFER;
        return;
      }
      if TransferComplete(env.completion) {
        if ecc && TransferFailed(env.error0, env.error1) {
          CountRetry();
        } else {
          step := READ_DONE;
        }
      } else {
        step := WAIT_TRANSFER;
      }
    }

    /** The loop body of NAND_ProcessRead: the switch, and what follows it. */
    method ReadPass(op: Op, ecc: bool, env: Env) returns (done: bool)
      requires ValidOp(op) && op.kind == ReadOp && ReadStep(step)
      modifies this`step, this`retry, this`trace
      ensures Did(ReadCall(op, ecc, old(step), old(retry), env), done, old(trace))
    {
      hide ReadStep, CmdDone, CmdSuccess, TransferComplete, TransferFailed, Row;
      ReadSwitch(op, ecc, env);
      if step == READ_DONE {
        step := NONE;
        retry := 0;
        return true;
      }
      return false;
    }

    /** NAND_ProcessRead: with bSync it loops until the operation is finished. envs is what each pass would
        see; a synchronous call that has seen them all is still running. */
    method ProcessRead(op: Op, ecc: bool, envs: seq<Env>, bSync: bool) returns (done: bool)
      requires ValidOp(op) && op.kind == ReadOp && ReadStep(step) && envs != []
      modifies this`step, this`retry, this`trace
      ensures Did(Passes(op, ecc, old(step), old(retry), if bSync then envs else envs[..1]), done, old(trace))
    {
      hide Passes, EraseCall, ProgramCall, ReadCall, ReadStep;
      ghost var step0, retry0 := step, retry;
      PassesPush(op, ecc, step0, retry0, envs, 0);
      done := ReadPass(op, ecc, envs[0]);
      var n := 1;
      while bSync && !done && n < |envs|
        invariant 1 <= n <= |envs| && (!bSync ==> n == 1)
        invariant Did(Passes(op, ecc, step0, retry0, envs[..n]), done, old(trace))
      {
        PassesPush(op, ecc, step0, retry0, envs, n);
        done := ReadPass(op, ecc, envs[n]);
        n := n + 1;
      }
      assert n == |envs| ==> envs[..n] == envs;
      if done {
        PassesStop(op, ecc, step0, retry0, envs, n);
      }
    }

    /** The switch of fil_process_nand on the first request of the way's list. */
    method Process(op: Op, env: Env) returns (done: bool)
      requires ValidOp(op) && StepFor(op.kind, step)
      modifies this`step, this`retry, this`trace
      ensures Did(Call(op, old(step), old(retry), env), done, old(trace))
    {
      hide EraseCall, ProgramCall, ReadCall, WriteStep, ReadStep;
      PassesPush(op, true, step, retry, [env], 0);
      assert [env][..1] == [env];
      match op.kind
      case ReadOp =>
        done := ProcessRead(op, true, [env], false);
      case ProgramOp =>
        done := ProcessProgram(op, [env], false);
      case EraseOp =>
        done := ProcessErase(op, [env], false);
    }

    /** fil_add_req puts operations on the way's list. */
    ghost method Ask(ops: seq<Op>)
      requires InOrder() && forall op :: op in ops ==> ValidOp(op)
      modifies this`way
      ensures InOrder() && way == Extended(old(way), ops)
    {
      ExtendedGood(way, ops);
      way := Extended(way, ops);
    }

    /** fil_process_nand calls the driver for the first operation of the list. */
    method Look(op: Op, env: Env) returns (done: bool)
      requires InOrder() && way.queue != [] && op == way.queue[0]
      modifies this
      ensures InOrder() && CanHappen(old(way), Polled(env)) && way == Happen(old(way), Polled(env))
      ensures done == Call(op, old(way.step), old(way.retry), env).done
    {
      hide Good, Call;
      PollKeeps(way, env);
      HeadCallable(way);
      done := Process(op, env);
      way := Happen(way, Polled(env));
    }
  }
}
