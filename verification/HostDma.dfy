/** The auto DMA counters of host_lld.c. Hardware and firmware count transfers in bytes that wrap;
    the firmware adds a 32-bit count of the wraps. The model keeps the unbounded counts beside them
    and shows what the bytes say about them. */
module HostDma {

  const WRAP32: nat := 0x1_0000_0000
  const WRAP40: nat := 0x100_0000_0000   // 256 * WRAP32

  type Byte = x: nat | x < 256
  type Word = x: nat | x < 0x1_0000_0000

  // ---------------------------------------------------------------- the partial-done decision

  /** check_auto_tx_dma_partial_done after its refresh; the two directions compare alike. */
  predicate Decide(head: Byte, tail: Byte, overflow: Word, tailIndex: Byte, tailAssist: Word) {
    if head == tail then true
    else if head < tailIndex then
      if tail < tailIndex then
        if tail > head then true else overflow != (tailAssist + 1) % WRAP32
      else overflow != tailAssist
    else if head == tailIndex then true
    else if tail < tailIndex then true
    else if tail > head then true
    else overflow != tailAssist
  }

  /** The decision when issued transfers are issued, done of them complete, and the recorded position
      is the one after mark transfers. */
  predicate DecideAt(done: nat, issued: nat, mark: nat) {
    Decide(done % 256, issued % 256, issued / 256 % WRAP32, mark % 256, mark / 256 % WRAP32)
  }

  /** The overflow comparisons, as statements about the number of wraps between the two positions. */
  lemma OverflowCompare(issued: nat, mark: nat)
    ensures var e := issued / 256 - mark / 256; var overflow, assist := issued / 256 % WRAP32, mark / 256 % WRAP32;
            && (overflow == assist <==> e % WRAP32 == 0)
            && (overflow == (assist + 1) % WRAP32 <==> (e - 1) % WRAP32 == 0)
  {
  }

  /** In one window of at most 255 outstanding transfers, the completed and the issued count differ
      by at most one wrap. */
  lemma WindowSplit(done: nat, issued: nat)
    requires done <= issued <= done + 255
    ensures (done / 256 == issued / 256 && done % 256 <= issued % 256)
         || (done / 256 + 1 == issued / 256 && done % 256 > issued % 256)
  {
  }

  /** How far the recorded position lies behind, modulo whole turns of the overflow counter. */
  lemma GapSplit(issued: nat, mark: nat)
    requires mark <= issued
    ensures var e := issued / 256 - mark / 256; var gap, t, i := (issued - mark) % WRAP40, issued % 256, mark % 256;
            && issued - mark == 256 * e + t - i
            && (e % WRAP32 == 0 && i <= t ==> gap == t - i)
            && ((e - 1) % WRAP32 == 0 && t < i ==> gap == 256 + t - i)
  {
    var e, t, i := issued / 256 - mark / 256, issued % 256, mark % 256;
    if e % WRAP32 == 0 && i <= t {
      assert issued - mark == WRAP40 * (e / WRAP32) + (t - i);
    }
    if (e - 1) % WRAP32 == 0 && t < i {
      assert issued - mark == WRAP40 * ((e - 1) / WRAP32) + (256 + t - i);
    }
  }

  /** The answer is right whenever the record is less than 2^40 transfers old, and also for older
      records unless they lie 0 to 254 transfers behind modulo 2^40. */
  lemma DecideExact(done: nat, issued: nat, mark: nat)
    requires done <= issued <= done + 255 && mark <= issued
    requires issued - mark < WRAP40 || (issued - mark) % WRAP40 >= 255
    ensures DecideAt(done, issued, mark) <==> done >= mark
  {
    OverflowCompare(issued, mark);
    WindowSplit(done, issued);
    GapSplit(issued, mark);
  }

  /** And for those it is wrong for some completed count. */
  lemma DecideAliases(issued: nat, mark: nat) returns (done: nat)
    requires mark <= issued
    requires issued - mark >= WRAP40 && (issued - mark) % WRAP40 < 255
    ensures mark <= done <= issued <= done + 255 && !DecideAt(done, issued, mark)
  {
    OverflowCompare(issued, mark);
    GapSplit(issued, mark);
    done := if issued % 256 >= mark % 256 > 0 then issued - issued % 256
            else if issued % 256 >= mark % 256 then issued - issued % 256 - 1
            else issued - 255;
    WindowSplit(done, issued);
  }

  /** For a record that lies behind, the decision is right for every possible completed count if and
      only if the record is less than 2^40 transfers old or more than 254 behind modulo 2^40. */
  lemma DecideCharacterised(issued: nat, mark: nat)
    requires mark <= issued
    ensures (forall done: nat :: done <= issued <= done + 255 ==> (DecideAt(done, issued, mark) <==> done >= mark))
       <==> (issued - mark < WRAP40 || (issued - mark) % WRAP40 >= 255)
  {
    hide DecideAt;
    if issued - mark < WRAP40 || (issued - mark) % WRAP40 >= 255 {
      forall done: nat | done <= issued <= done + 255
        ensures DecideAt(done, issued, mark) <==> done >= mark
      {
        DecideExact(done, issued, mark);
      }
    } else {
      var done := DecideAliases(issued, mark);
    }
  }

  // ---------------------------------------------------------------- the counters

  /** The byte advances with the count, and wraps exactly when the overflow word is advanced. */
  lemma AdvanceBytes(n: nat)
    ensures (n + 1) % 256 == (n % 256 + 1) % 256
    ensures n % 256 > (n + 1) % 256 <==> (n + 1) / 256 != n / 256
    ensures (n + 1) / 256 % WRAP32 == if (n + 1) / 256 != n / 256 then (n / 256 % WRAP32 + 1) % WRAP32 else n / 256 % WRAP32
    ensures (n + 1) % WRAP32 == (n % WRAP32 + 1) % WRAP32
  {
    assert (n + 1) / 256 == n / 256 || (n + 1) / 256 == n / 256 + 1;
  }

  /** What two bytes say about counts at most 255 apart. */
  lemma ByteCompare(seen: nat, issued: nat)
    requires seen <= issued <= seen + 255
    ensures seen % 256 == issued % 256 <==> seen == issued
    ensures (issued % 256 + 1) % 256 == seen % 256 <==> issued == seen + 255
  {
  }

  /** One direction: the firmware's bytes and words, and the engine's own counts. */
  class Channel {
    // fifoHead, fifoTail, OverFlowCnt and Cnt of the firmware
    var head: Byte
    var tail: Byte
    var overflow: Word
    var count: Word
    // transfers the engine has accepted and completed
    var issued: nat
    var done: nat
    // done at the last refresh of head
    ghost var seen: nat

    ghost predicate Valid()
      reads this
    {
      && seen <= done <= issued <= seen + 255
      && head == seen % 256 && tail == issued % 256
      && overflow == issued / 256 % WRAP32 && count == issued % WRAP32
    }

    constructor ()
      ensures Valid() && issued == 0
    {
      head, tail, overflow, count := 0, 0, 0, 0;
      issued, done, seen := 0, 0, 0;
    }

    /** The engine completes up to n more transfers, and the firmware reads its byte. */
    method Refresh(n: nat)
      requires Valid()
      modifies this`done, this`head, this`seen
      ensures Valid() && seen == done && done == if old(done) + n <= issued then old(done) + n else issued
    {
      done := if done + n <= issued then done + n else issued;
      head := done % 256;
      seen := done;
    }

    /** The end of set_auto_tx_dma and set_auto_rx_dma: the descriptor is written and the tail
        advances; tail and overflow count keep telling the total. */
    method Advance()
      requires Valid() && issued < seen + 255
      modifies this`issued, this`tail, this`overflow, this`count
      ensures Valid() && issued == old(issued) + 1
    {
      AdvanceBytes(issued);
      issued := issued + 1;
      var tempTail := tail;
      tail := (tail + 1) % 256;
      if tempTail > tail {
        overflow := (overflow + 1) % WRAP32;
      }
      count := (count + 1) % WRAP32;
    }
  }

  /** Both directions. One read of the counter register refreshes both heads. How many transfers
      complete before each read is up to the engine: future lists it for the next reads, and after
      those the engine has caught up. */
  class Engine {
    const rx: Channel
    const tx: Channel
    var future: seq<(nat, nat)>

    ghost predicate Valid()
      reads this, rx, tx
    {
      rx != tx && rx.Valid() && tx.Valid()
    }

    constructor (future: seq<(nat, nat)>)
      ensures Valid() && rx.issued == 0 && tx.issued == 0 && fresh(rx) && fresh(tx)
    {
      rx := new Channel();
      tx := new Channel();
      this.future := future;
    }

    /** How long polling may have to go on for a channel. */
    ghost function Patience(ch: Channel): nat
      reads this, ch
    {
      |future| + (if ch.seen == ch.issued then 0 else 1)
    }

    /** IO_READ32 of the counter register into fifoHead. */
    method ReadCounters()
      requires Valid()
      modifies this`future, rx`done, rx`head, rx`seen, tx`done, tx`head, tx`seen
      ensures Valid() && rx.seen == rx.done && tx.seen == tx.done
      ensures rx.done >= old(rx.done) && tx.done >= old(tx.done)
      ensures old(rx.seen != rx.issued) ==> Patience(rx) < old(Patience(rx))
      ensures old(tx.seen != tx.issued) ==> Patience(tx) < old(Patience(tx))
    {
      if future != [] {
        rx.Refresh(future[0].0);
        tx.Refresh(future[0].1);
        future := future[1..];
      } else {
        rx.Refresh(rx.issued);
        tx.Refresh(tx.issued);
      }
    }

    /** set_auto_tx_dma and set_auto_rx_dma. Waiting for room keeps the outstanding transfers at
        most 255, which is what makes the bytes tell the counts apart. */
    method SetAutoDma(ch: Channel)
      requires Valid() && (ch == rx || ch == tx)
      modifies this`future, rx, tx
      ensures Valid() && ch.issued == old(ch.issued) + 1
      ensures rx.issued + tx.issued == old(rx.issued + tx.issued) + 1
      ensures rx.done >= old(rx.done) && tx.done >= old(tx.done)
    {
      ReadCounters();
      while (ch.tail + 1) % 256 == ch.head
        invariant Valid() && rx.issued == old(rx.issued) && tx.issued == old(tx.issued)
        invariant rx.done >= old(rx.done) && tx.done >= old(tx.done)
        decreases Patience(ch)
      {
        ByteCompare(ch.seen, ch.issued);
        ReadCounters();
      }
      ByteCompare(ch.seen, ch.issued);
      ch.Advance();
    }

    /** check_auto_tx_dma_done and check_auto_rx_dma_done: even when the cached head is stale, the
        loop ends only when every issued transfer of the direction is complete. */
    method CheckAutoDone(ch: Channel)
      requires Valid() && (ch == rx || ch == tx)
      modifies this`future, rx`done, rx`head, rx`seen, tx`done, tx`head, tx`seen
      ensures Valid() && ch.done == ch.issued
      ensures rx.done >= old(rx.done) && tx.done >= old(tx.done)
    {
      while ch.head != ch.tail
        invariant Valid() && rx.done >= old(rx.done) && tx.done >= old(tx.done)
        decreases Patience(ch)
      {
        ReadCounters();
      }
      ByteCompare(ch.seen, ch.issued);
    }

    /** check_auto_tx_dma_partial_done and check_auto_rx_dma_partial_done, asked about the position
        after mark transfers. */
    method CheckPartialDone(ch: Channel, tailIndex: Byte, tailAssist: Word, ghost mark: nat) returns (complete: bool)
      requires Valid() && (ch == rx || ch == tx)
      requires mark <= ch.issued && tailIndex == mark % 256 && tailAssist == mark / 256 % WRAP32
      modifies this`future, rx`done, rx`head, rx`seen, tx`done, tx`head, tx`seen
      ensures Valid()
      ensures ch.issued - mark < WRAP40 || (ch.issued - mark) % WRAP40 >= 255 ==> (complete <==> ch.done >= mark)
    {
      ReadCounters();
      complete := Decide(ch.head, ch.tail, ch.overflow, tailIndex, tailAssist);
      if ch.issued - mark < WRAP40 || (ch.issued - mark) % WRAP40 >= 255 {
        DecideExact(ch.done, ch.issued, mark);
      }
    }
  }
}
