/** What the NAND driver does with what it sees, bit by bit: the words it reads are spelled out here,
    not the macros it reads them with. */
module NandOutcomes {
  import opened Base
  import opened NandAddress
  import opened Model
  import opened NandWay

  /** The row of a page: 256 rows a block, the second LUN from row 0x200000 on. */
  function ChipRow(block: nat, page: nat): nat {
    if block < 600 then 256 * block + page else 0x20_0000 + 256 * block + page
  }

  /** Bit 0 says that the status has been reported, bits 6 and 7 that the operation is complete. */
  predicate Reported(status: bv32) {
    status & 0xC1 == 0xC1
  }

  /** Bit 1 or bit 2 says that it failed. */
  predicate Bad(status: bv32) {
    status & 6 != 0
  }

  /** Bits 24 and 28 of the first word and all bits of the second say that the page was corrected. */
  predicate Corrected(error0: bv32, error1: bv32) {
    error0 & 0x1100_0000 == 0x1100_0000 && error1 == 0xffff_ffff
  }

  predicate Ready(env: Env) {
    !env.controllerBusy && env.wayReady
  }

  lemma WordsAre(env: Env)
    ensures CmdDone(env.status) <==> Reported(env.status)
    ensures Reported(env.status) ==> RequestComplete(EliminateReportDone(env.again)) && (CmdSuccess(env.again) <==> !Bad(env.status))
    ensures ReportDone(env.status) <==> env.status & 1 == 1
    ensures AnyCompleteBit(env.again) <==> env.again & 0xC0 != 0
    ensures TransferComplete(env.completion) <==> env.completion & 1 == 1
    ensures TransferFailed(env.error0, env.error1) <==> !Corrected(env.error0, env.error1)
  {
    var s, a, c := env.status, env.again, env.completion;
    assert (s >> 1) & 0x60 == 0x60 && s & 1 != 0 <==> s & 0xC1 == 0xC1;
    assert (a >> 1) & 0x60 == 0x60 <==> a & 0xC0 == 0xC0;
    assert (a >> 1) & 3 != 0 <==> a & 6 != 0;
    assert s & 1 != 0 <==> s & 1 == 1;
    assert s & 0xC1 == 0xC1 ==> s & 0xC0 == 0xC0;
    assert c & 1 != 0 <==> c & 1 == 1;
    ErrorBits(env.error0);
  }

  lemma ErrorBits(e: bv32)
    ensures e & 0x1000_0000 != 0 && e & 0x0100_0000 != 0 <==> e & 0x1100_0000 == 0x1100_0000
  {
  }

  // ---------------------------------------------------------------- commands

  /** The commands of an operation, by its fields. */
  lemma CommandsOf(op: Op)
    requires ValidOp(op)
    ensures op.kind == EraseOp ==> Opening(op) == EraseBlock(ChipRow(op.addr.block, 0))
    ensures op.kind == ProgramOp ==> Opening(op) == ProgramPage(ChipRow(op.addr.block, op.addr.page), op.buf)
    ensures op.kind == ReadOp ==> Opening(op) == ReadTrigger(ChipRow(op.addr.block, op.addr.page))
    ensures op.kind == ReadOp ==> Transfer(op, true) == ReadTransfer(ChipRow(op.addr.block, op.addr.page), op.buf)
    ensures Transfer(op, false) == RawTransfer(op.buf)
  {
    RowIs(op.addr.block, op.addr.page);
    RowIs(op.addr.block, 0);
  }

  lemma RowIs(block: nat, page: nat)
    requires block < TOTAL_BLOCKS_PER_DIE
    ensures RowAddress(block, page) == ChipRow(block, page)
  {
    assert block / 600 * 600 + block % 600 == block;
  }

  // ---------------------------------------------------------------- looks

  /** Opening and status command: sent when the controller is idle and the way ready, and only then. */
  lemma FrontLook(op: Op, step: nat, retry: nat, env: Env)
    requires ValidOp(op) && step in {NONE, CHECK_ISSUABLE, WAIT_DONE}
    ensures StepFor(op.kind, step)
    ensures Call(op, step, retry, env) ==
            if step == WAIT_DONE then
              if Ready(env) then Outcome(WAIT_STATUS, retry, [StatusCheck], false) else Outcome(WAIT_DONE, retry, [], false)
            else
              if Ready(env) then Outcome(WAIT_DONE, retry, [Opening(op)], false) else Outcome(CHECK_ISSUABLE, retry, [], false)
  {
    hide Opening, ValidOp;
  }

  /** An erase finishes when it sees all of bits 0, 6 and 7; it asks again when neither of bits 6 and 7
      is there the second time it looks; otherwise it looks on. */
  lemma EraseLook(op: Op, step: nat, env: Env)
    requires ValidOp(op) && op.kind == EraseOp && (step == CHECK_STATUS || (step == WAIT_STATUS && env.wayReady))
    ensures Call(op, step, 0, env) ==
            if Reported(env.status) then Outcome(NONE, 0, [], true)
            else if env.again & 0xC0 == 0 then Outcome(WAIT_DONE, 0, [], false)
            else Outcome(CHECK_STATUS, 0, [], false)
  {
    hide CmdDone, AnyCompleteBit, Reported;
    WordsAre(env);
  }

  /** A program finishes when it sees all of bits 0, 6 and 7; it asks again when it sees bit 0 without
      both of the others; otherwise it looks on. */
  lemma ProgramLook(op: Op, step: nat, env: Env)
    requires ValidOp(op) && op.kind == ProgramOp && (step == CHECK_STATUS || (step == WAIT_STATUS && env.wayReady))
    ensures Call(op, step, 0, env) ==
            if Reported(env.status) then Outcome(NONE, 0, [], true)
            else if env.status & 1 == 1 then Outcome(WAIT_DONE, 0, [], false)
            else Outcome(CHECK_STATUS, 0, [], false)
  {
    hide CmdDone, ReportDone, Reported;
    WordsAre(env);
  }

  /** While the status command is under way nothing happens. */
  lemma BusyLook(op: Op, retry: nat, env: Env)
    requires ValidOp(op) && !env.wayReady
    ensures Call(op, WAIT_STATUS, retry, env) == Outcome(WAIT_STATUS, retry, [], false)
  {
  }

  /** A failed attempt starts a read again from its trigger, and the sixth one ends it. */
  predicate Retried(o: Outcome, retry: nat) {
    o == if retry < 5 then Outcome(NONE, retry + 1, [], false) else Outcome(NONE, 0, [], true)
  }

  /** A read whose status has been reported without a fail bit goes on to transfer its page into its
      buffer, whatever it sees then; with a fail bit it counts a failed attempt; without a report it
      asks again. */
  lemma ReadStatusLook(op: Op, retry: nat, env: Env, next: Env)
    requires ValidOp(op) && op.kind == ReadOp && env.wayReady
    ensures var o := Call(op, WAIT_STATUS, retry, env);
            if !Reported(env.status) then o == Outcome(WAIT_DONE, retry, [], false)
            else if Bad(env.status) then Retried(o, retry)
            else o == Outcome(CHECK_TRANSFER_ISSUABLE, retry, [], false)
    ensures Call(op, CHECK_TRANSFER_ISSUABLE, retry, next) ==
            Outcome(WAIT_TRANSFER, retry, [ReadTransfer(ChipRow(op.addr.block, op.addr.page), op.buf)], false)
  {
    hide CmdDone, CmdSuccess, Reported, Bad, Row, ChipRow;
    WordsAre(env);
    CommandsOf(op);
  }

  /** A transfer is looked for once the way is ready again; it ends the read when it is complete and
      the page was corrected, and counts a failed attempt when it was not. */
  lemma TransferLook(op: Op, retry: nat, env: Env)
    requires ValidOp(op) && op.kind == ReadOp
    ensures Call(op, WAIT_TRANSFER, retry, env) == Outcome(if Ready(env) then CHECK_TRANSFER else WAIT_TRANSFER, retry, [], false)
    ensures var o := Call(op, CHECK_TRANSFER, retry, env);
            if env.completion & 1 == 0 then o == Outcome(WAIT_TRANSFER, retry, [], false)
            else if Corrected(env.error0, env.error1) then o == Outcome(NONE, 0, [], true)
            else Retried(o, retry)
  {
    hide TransferComplete, TransferFailed, Corrected, Row;
    WordsAre(env);
    assert env.completion & 1 == 0 || env.completion & 1 == 1;
  }

  // ---------------------------------------------------------------- why a read ended

  /** The driver sees a failed status, or a complete transfer that was not corrected. */
  predicate Fails(step: nat, env: Env) {
    || (step == WAIT_STATUS && env.wayReady && Reported(env.status) && Bad(env.status))
    || (step == CHECK_TRANSFER && env.completion & 1 == 1 && !Corrected(env.error0, env.error1))
  }

  predicate Succeeds(step: nat, env: Env) {
    step == CHECK_TRANSFER && env.completion & 1 == 1 && Corrected(env.error0, env.error1)
  }

  /** Where the driver was when it saw the n-th of looks. */
  function StepAt(op: Op, looks: seq<Env>, n: nat): nat
    requires ValidOp(op) && n <= |looks|
  {
    Passes(op, true, NONE, 0, looks[..n]).step
  }

  function Failures(op: Op, looks: seq<Env>): nat
    requires ValidOp(op)
  {
    if looks == [] then 0
    else
      var n := |looks| - 1;
      Failures(op, looks[..n]) + (if Fails(StepAt(op, looks, n), looks[n]) then 1 else 0)
  }

  /** One look at a read in progress: the retry count counts failures, and nothing else ends the read
      but the sixth of them or a corrected transfer. */
  lemma ReadLook(op: Op, step: nat, retry: nat, env: Env)
    requires ValidOp(op) && op.kind == ReadOp && ReadStep(step) && retry <= 5
    ensures var o := Call(op, step, retry, env); var failed := Fails(step, env);
            if o.done then Succeeds(step, env) || (failed && retry == 5)
            else o.retry == retry + (if failed then 1 else 0) <= 5
  {
    hide Reported, Bad, Corrected, Row, Opening, CmdDone, CmdSuccess, TransferComplete, TransferFailed;
    WordsAre(env);
    assert env.completion & 1 == 0 || env.completion & 1 == 1;
  }

  lemma {:induction false} FailuresCounted(op: Op, looks: seq<Env>)
    requires ValidOp(op) && op.kind == ReadOp && !Passes(op, true, NONE, 0, looks).done
    ensures Passes(op, true, NONE, 0, looks).retry == Failures(op, looks) <= 5
    decreases |looks|
  {
    hide Pass, Fails;
    if looks == [] {
    } else {
      var n := |looks| - 1;
      FailuresCounted(op, looks[..n]);
      var o := Passes(op, true, NONE, 0, looks[..n]);
      ReadLook(op, o.step, o.retry, looks[n]);
    }
  }

  /** A finished read has ended with a corrected transfer, seen at the last look, or has seen six
      failures, the last at the last look. */
  lemma ReadEnds(op: Op, script: seq<DevCmd>, looks: seq<Env>)
    requires ValidOp(op) && op.kind == ReadOp && Watched(op, script, looks)
    ensures var n := |looks| - 1;
            || Succeeds(StepAt(op, looks, n), looks[n])
            || (Fails(StepAt(op, looks, n), looks[n]) && Failures(op, looks) == 6)
  {
    hide Pass, Fails, Succeeds;
    var n := |looks| - 1;
    FailuresCounted(op, looks[..n]);
    var o := Passes(op, true, NONE, 0, looks[..n]);
    ReadLook(op, o.step, o.retry, looks[n]);
  }

  /** At CHECK_TRANSFER the last command issued is the transfer of the page into the buffer. */
  lemma {:induction false} TransferredBefore(op: Op, looks: seq<Env>)
    requires ValidOp(op) && op.kind == ReadOp && !Passes(op, true, NONE, 0, looks).done
    requires Passes(op, true, NONE, 0, looks).step in {WAIT_TRANSFER, CHECK_TRANSFER}
    ensures var issued := Passes(op, true, NONE, 0, looks).issued;
            issued != [] && Last(issued) == ReadTransfer(ChipRow(op.addr.block, op.addr.page), op.buf)
    decreases |looks|
  {
    hide CmdDone, CmdSuccess, TransferComplete, TransferFailed, Opening, Row, ChipRow;
    CommandsOf(op);
    var n := |looks| - 1;
    var o := Passes(op, true, NONE, 0, looks[..n]);
    if o.step in {WAIT_TRANSFER, CHECK_TRANSFER} {
      TransferredBefore(op, looks[..n]);
      assert o.issued + [] == o.issued;
    }
  }

  /** So it is for every finished read of a way, in every run: its last command was the transfer of its
      page into its buffer, and it succeeded; or six attempts failed. */
  lemma EveryReadEnds(w: Way, k: nat)
    requires Good(w) && k < |w.scripts| && w.asked[k].kind == ReadOp
    ensures var op, looks, script := w.asked[k], w.seens[k], w.scripts[k]; var n := |looks| - 1;
            if Succeeds(StepAt(op, looks, n), looks[n])
            then script != [] && Last(script) == ReadTransfer(ChipRow(op.addr.block, op.addr.page), op.buf)
            else Failures(op, looks) == 6
  {
    hide Orderly, ChipRow, Fails, Pass;
    var op, looks := w.asked[k], w.seens[k];
    assert Watched(op, w.scripts[k], looks);
    ReadEnds(op, w.scripts[k], looks);
    var n := |looks| - 1;
    if Succeeds(StepAt(op, looks, n), looks[n]) {
      TransferredBefore(op, looks[..n]);
      SuccessIssuesNothing(op, looks);
    }
  }

  lemma SuccessIssuesNothing(op: Op, looks: seq<Env>)
    requires ValidOp(op) && op.kind == ReadOp && looks != []
    requires Succeeds(StepAt(op, looks, |looks| - 1), looks[|looks| - 1])
    requires !Passes(op, true, NONE, 0, looks[..|looks| - 1]).done
    ensures Passes(op, true, NONE, 0, looks).issued == Passes(op, true, NONE, 0, looks[..|looks| - 1]).issued
  {
    hide Pass, Corrected, ValidOp;
    var n := |looks| - 1;
    var o := Passes(op, true, NONE, 0, looks[..n]);
    TransferLook(op, o.retry, looks[n]);
    assert looks[n].completion & 1 == 1 && looks[n].completion & 1 != 0;
    assert o.issued + [] == o.issued;
  }
}
