/** Physical page addresses: the bit fields of nand_addr_t, the cascaded write counters
    of the FTL, and the row address the NAND driver computes from a block and a page. */
module NandAddress {
  import opened Base

  const USER_CHANNELS: nat := 8
  const USER_WAYS: nat := 8
  const PAGES_PER_BLOCK: nat := 128
  const FIRST_BLOCK: nat := 50
  const BLOCK_LIMIT: nat := 512

  /** The number of block writes after which i_block reaches 512 and the FTL asserts. */
  const WRITE_LIMIT: nat := 3784704

  type Bits3 = x: nat | x < 8
  type Bits8 = x: nat | x < 256
  type Bits14 = x: nat | x < 16384
  type WayId = x: nat | x < 64

  datatype NandAddr = NandAddr(ch: Bits3, way: Bits3, block: Bits14, page: Bits8, valid: bool)

  const ZERO_ADDR := NandAddr(0, 0, 0, 0, false)

  /** Assigning to the bit fields keeps only the low bits of each counter. */
  function Pack(ch: nat, way: nat, block: nat, page: nat): NandAddr {
    NandAddr(ch % 8, way % 8, block % 16384, page % 256, true)
  }

  /** The FIFO an address belongs to, request_q[ch][way] flattened. */
  function WayOf(a: NandAddr): WayId {
    8 * a.way + a.ch
  }

  /** The four counters i_ch, i_way, i_page, i_block. */
  datatype Counters = Counters(ch: nat, way: nat, page: nat, block: nat)

  const INIT_COUNTERS := Counters(0, 0, 0, FIRST_BLOCK)

  /** The nested ifs that advance the counters; None when the assert(0) is reached. */
  function Bump(c: Counters): Option<Counters> {
    if c.ch + 1 < USER_CHANNELS then Some(c.(ch := c.ch + 1))
    else if c.way + 1 < USER_WAYS then Some(c.(ch := 0, way := c.way + 1))
    else if c.page + 1 < PAGES_PER_BLOCK then Some(c.(ch := 0, way := 0, page := c.page + 1))
    else if c.block + 1 < BLOCK_LIMIT then Some(Counters(0, 0, 0, c.block + 1))
    else None
  }

  /** Reference: the counters after n block writes are the mixed-radix digits of n. */
  function Digits(n: nat): Counters {
    Counters(n % 8, n / 8 % 8, n / 64 % 128, FIRST_BLOCK + n / 8192)
  }

  /** Reference: the page that the n-th block write goes to. */
  function AddrOf(n: nat): NandAddr {
    var d := Digits(n);
    Pack(d.ch, d.way, d.block, d.page)
  }

  /** The position of a page among all pages of its way, counted from block 50. */
  function PageIndex(a: NandAddr): int {
    128 * (a.block - FIRST_BLOCK) + a.page
  }

  /** The write that an address was handed out for. */
  function LogIndex(a: NandAddr): int {
    64 * PageIndex(a) + WayOf(a)
  }

  lemma DigitSplit(n: nat)
    ensures n == 64 * (n / 64) + 8 * (n / 8 % 8) + n % 8
    ensures n / 64 == 128 * (n / 8192) + n / 64 % 128
  {
    assert n / 64 == n / 8 / 8;
    assert n / 8192 == n / 64 / 128;
  }

  /** The cascade computes the mixed-radix successor, and reaches the assert exactly on the
      write that uses up the last page of block 511. */
  lemma BumpIsSuccessor(n: nat)
    requires n < WRITE_LIMIT
    ensures Bump(Digits(n)) == if n + 1 < WRITE_LIMIT then Some(Digits(n + 1)) else None
  {
    DigitSplit(n);
    DigitSplit(n + 1);
    var d := Digits(n);
    assert d.ch < 8 && d.way < 8 && d.page < 128;
    if d.ch + 1 < 8 {
      assert (n + 1) / 8 == n / 8 && (n + 1) % 8 == n % 8 + 1;
      assert (n + 1) / 64 == n / 64;
    } else if d.way + 1 < 8 {
      assert (n + 1) / 8 == n / 8 + 1 && (n + 1) % 8 == 0;
      assert (n + 1) / 64 == n / 64;
    } else {
      assert (n + 1) % 8 == 0 && (n + 1) / 8 == n / 8 + 1;
      assert (n + 1) / 64 == n / 64 + 1 && (n + 1) / 8 % 8 == 0;
    }
  }

  /** Every address handed out fits its bit fields, names the way n mod 64, and gives n back. */
  lemma AddrOfFacts(n: nat)
    requires n < WRITE_LIMIT
    ensures AddrOf(n).valid
    ensures AddrOf(n).block == FIRST_BLOCK + n / 8192 < BLOCK_LIMIT && AddrOf(n).page == n / 64 % 128
    ensures WayOf(AddrOf(n)) == n % 64
    ensures PageIndex(AddrOf(n)) == n / 64
    ensures LogIndex(AddrOf(n)) == n
  {
    DigitSplit(n);
    assert n / 8192 < 462;
  }

  // ---------------------------------------------------------------- row addresses

  const TOTAL_BLOCKS_PER_LUN: nat := 600
  const TOTAL_BLOCKS_PER_DIE: nat := 1200
  const PAGES_PER_MLC_BLOCK: nat := 256
  const LUN_0_BASE_ADDR: nat := 0
  const LUN_1_BASE_ADDR: nat := 0x200000

  function LunBaseAddr(lun: nat): nat
    requires lun <= 1
  {
    if lun == 0 then LUN_0_BASE_ADDR else LUN_1_BASE_ADDR
  }

  function RowAddress(block: nat, page: nat): nat
    requires block < TOTAL_BLOCKS_PER_DIE
  {
    var lun := block / TOTAL_BLOCKS_PER_LUN;
    var localBlock := lun * TOTAL_BLOCKS_PER_LUN + block % TOTAL_BLOCKS_PER_LUN;
    LunBaseAddr(lun) + localBlock * PAGES_PER_MLC_BLOCK + page
  }

  /** Different valid pages of a die have different row addresses. */
  lemma RowAddressInjective(b0: nat, p0: nat, b1: nat, p1: nat)
    requires b0 < TOTAL_BLOCKS_PER_DIE && p0 < PAGES_PER_MLC_BLOCK
    requires b1 < TOTAL_BLOCKS_PER_DIE && p1 < PAGES_PER_MLC_BLOCK
    requires RowAddress(b0, p0) == RowAddress(b1, p1)
    ensures b0 == b1 && p0 == p1
  {
    assert b0 / 600 <= 1 && b1 / 600 <= 1;
    assert 600 * (b0 / 600) + b0 % 600 == b0;
    assert 600 * (b1 / 600) + b1 % 600 == b1;
  }

  /** Allocation is injective down to the wire: two different block writes never produce the
      same channel, way and row address. */
  lemma AllocationInjective(m: nat, n: nat)
    requires m < WRITE_LIMIT && n < WRITE_LIMIT && m != n
    ensures var a, b := AddrOf(m), AddrOf(n);
            (a.ch, a.way, RowAddress(a.block, a.page)) != (b.ch, b.way, RowAddress(b.block, b.page))
  {
    AddrOfFacts(m);
    AddrOfFacts(n);
    var a, b := AddrOf(m), AddrOf(n);
    if RowAddress(a.block, a.page) == RowAddress(b.block, b.page) {
      RowAddressInjective(a.block, a.page, b.block, b.page);
      assert WayOf(a) != WayOf(b);
    }
  }
}
