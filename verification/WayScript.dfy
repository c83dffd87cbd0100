/** What one NAND way may be asked to do. Leaving reads aside, the operations of a way form one
    fixed script: erase block 50, program its pages 0 to 127, erase block 51, and so on. A way's
    position in the script determines which pages hold data. */
module WayScript {
  import opened Base
  import opened NandAddress
  import opened Model

  datatype Act = Erasing(block: int) | Programming(block: int, page: int)

  /** Entry t of the script. */
  function ScriptAt(t: nat): Act {
    if t % 129 == 0 then Erasing(FIRST_BLOCK + t / 129)
    else Programming(FIRST_BLOCK + t / 129, t % 129 - 1)
  }

  /** Where in the script the j-th page of the way is programmed. */
  function ProgPos(j: nat): nat {
    j + j / 128 + 1
  }

  /** The script position after k whole block writes on this way. */
  function EndPos(k: nat): nat {
    k + (k + 127) / 128
  }

  /** How many of the first n block writes go to way w. */
  function WritesOn(w: WayId, n: nat): nat {
    (n + 63 - w) / 64
  }

  /** One operation at script position t: a read needs its page programmed already, anything else
      must be the script's next entry. None when the discipline is broken. */
  function Advance(t: nat, op: Op): Option<nat> {
    match op.kind
    case ReadOp =>
      var j := PageIndex(op.addr);
      if 0 <= j && ProgPos(j) < t then Some(t) else None
    case EraseOp => if ScriptAt(t) == Erasing(op.addr.block) then Some(t + 1) else None
    case ProgramOp =>
      if ScriptAt(t) == Programming(op.addr.block, op.addr.page) then Some(t + 1) else None
  }

  function Exec(t: nat, ops: seq<Op>): Option<nat>
    decreases ops
  {
    if ops == [] then Some(t)
    else match Advance(t, ops[0])
      case None => None
      case Some(u) => Exec(u, ops[1..])
  }

  lemma {:induction false} ExecAppend(t: nat, a: seq<Op>, b: seq<Op>)
    requires Exec(t, a).Some?
    ensures Exec(t, a + b) == Exec(Exec(t, a).value, b)
    decreases a
  {
    if a == [] {
      assert a + b == b;
    } else {
      assert (a + b)[1..] == a[1..] + b;
      ExecAppend(Advance(t, a[0]).value, a[1..], b);
    }
  }

  lemma ExecOne(t: nat, op: Op)
    ensures Exec(t, [op]) == Advance(t, op)
  {
    assert [op][1..] == [];
    if Advance(t, op).Some? {
      assert Exec(Advance(t, op).value, []) == Some(Advance(t, op).value);
    }
  }

  lemma ProgPosFacts(j: nat)
    ensures ProgPos(j) == 129 * (j / 128) + j % 128 + 1
    ensures ScriptAt(ProgPos(j)) == Programming(FIRST_BLOCK + j / 128, j % 128)
  {
    var q, r := j / 128, j % 128;
    assert j == 128 * q + r;
    var t := 129 * q + r + 1;
    assert t / 129 == q && t % 129 == r + 1;
  }

  /** Once k writes are through, exactly the first k pages can be read. */
  lemma ReadableAtEnd(j: nat, k: nat)
    ensures ProgPos(j) < EndPos(k) <==> j < k
  {
    if j < k {
      assert j / 128 <= (k - 1) / 128;
      assert (k + 127) / 128 == (k - 1) / 128 + 1;
    } else {
      assert (k + 127) / 128 <= j / 128 + 1;
    }
  }

  /** The k-th write of a way continues the script: an erase first when it opens a block. */
  lemma WriteContinues(k: nat)
    ensures k % 128 == 0 ==> ScriptAt(EndPos(k)) == Erasing(FIRST_BLOCK + k / 128)
                             && ProgPos(k) == EndPos(k) + 1 && EndPos(k + 1) == EndPos(k) + 2
    ensures k % 128 != 0 ==> ProgPos(k) == EndPos(k) && EndPos(k + 1) == EndPos(k) + 1
    ensures ScriptAt(ProgPos(k)) == Programming(FIRST_BLOCK + k / 128, k % 128)
  {
    ProgPosFacts(k);
    var q, r := k / 128, k % 128;
    assert k == 128 * q + r;
    if r == 0 {
      assert (k + 127) / 128 == q && (k + 1 + 127) / 128 == q + 1;
      var t := 129 * q;
      assert EndPos(k) == t && t % 129 == 0 && t / 129 == q;
    } else {
      assert (k + 127) / 128 == q + 1 && (k + 1 + 127) / 128 == q + 1;
    }
  }

  lemma WritesOnNext(w: WayId, n: nat)
    ensures WritesOn(w, n + 1) == WritesOn(w, n) + (if n % 64 == w then 1 else 0)
    ensures n % 64 == w ==> WritesOn(w, n) == n / 64
  {
    var q, r := n / 64, n % 64;
    assert n == 64 * q + r;
    if r == w {
      assert n + 63 - w == 64 * q + 63;
    }
  }

  /** A write's address is among the pages its way has been given. */
  lemma WriteCounted(m: nat, n: nat)
    requires m < n
    ensures m / 64 < WritesOn(m % 64, n)
  {
    var w: WayId := m % 64;
    assert m == 64 * (m / 64) + w;
    assert n + 63 - w >= 64 * (m / 64) + 64;
  }

  // ---------------------------------------------------------------- the medium

  /** The erased blocks of a way, each with the pages programmed since its erase, in order. */
  type Flash = map<nat, seq<Block>>

  /** The pages programmed in block b at script position t. */
  function Filled(t: nat, b: nat): int {
    var f := t - 129 * (b - FIRST_BLOCK) - 1;
    if f < 128 then f else 128
  }

  ghost predicate HoldsPage(fl: Flash, w: WayId, log: seq<Block>, b: nat, p: nat)
    requires b in fl && p < |fl[b]|
  {
    var n := 64 * (128 * (b - FIRST_BLOCK) + p) + w;
    0 <= n < |log| && fl[b][p] == log[n]
  }

  /** At position t the medium of way w holds exactly the data of the writes programmed so far. */
  ghost predicate HoldsLog(fl: Flash, t: nat, w: WayId, log: seq<Block>) {
    && (forall b: nat :: b in fl <==> FIRST_BLOCK <= b && 129 * (b - FIRST_BLOCK) < t)
    && (forall b: nat :: b in fl ==> |fl[b]| == Filled(t, b))
    && (forall b: nat, p: nat :: b in fl && p < |fl[b]| ==> HoldsPage(fl, w, log, b, p))
  }

  lemma HoldsLogGrows(fl: Flash, t: nat, w: WayId, log: seq<Block>, more: seq<Block>)
    requires HoldsLog(fl, t, w, log)
    ensures HoldsLog(fl, t, w, log + more)
  {
    forall b: nat, p: nat | b in fl && p < |fl[b]|
      ensures HoldsPage(fl, w, log + more, b, p)
    {
      assert HoldsPage(fl, w, log, b, p);
    }
  }

  /** The erase the script asks for hits a block that holds no data yet. */
  lemma EraseFits(fl: Flash, t: nat, w: WayId, log: seq<Block>, a: NandAddr)
    requires HoldsLog(fl, t, w, log)
    requires ScriptAt(t) == Erasing(a.block)
    ensures a.block !in fl
    ensures HoldsLog(fl[a.block := []], t + 1, w, log)
  {
    var q := t / 129;
    assert t == 129 * q && a.block == FIRST_BLOCK + q;
    var fl' := fl[a.block := []];
    forall b: nat
      ensures b in fl' <==> FIRST_BLOCK <= b && 129 * (b - FIRST_BLOCK) < t + 1
    {
    }
    forall b: nat | b in fl'
      ensures |fl'[b]| == Filled(t + 1, b)
    {
      if b != a.block {
        assert b - FIRST_BLOCK <= q - 1;
      }
    }
    forall b: nat, p: nat | b in fl' && p < |fl'[b]|
      ensures HoldsPage(fl', w, log, b, p)
    {
      assert HoldsPage(fl, w, log, b, p);
    }
  }

  /** The program the script asks for hits the next free page of an erased block. */
  lemma ProgramFits(fl: Flash, t: nat, w: WayId, log: seq<Block>, a: NandAddr, d: Block)
    requires HoldsLog(fl, t, w, log)
    requires ScriptAt(t) == Programming(a.block, a.page)
    requires WayOf(a) == w && 0 <= LogIndex(a) < |log| && log[LogIndex(a)] == d
    ensures a.block in fl && |fl[a.block]| == a.page < 128
    ensures HoldsLog(fl[a.block := fl[a.block] + [d]], t + 1, w, log)
  {
    var q, r := t / 129, t % 129;
    assert t == 129 * q + r && a.block == FIRST_BLOCK + q && a.page == r - 1;
    assert a.block in fl;
    var fl' := fl[a.block := fl[a.block] + [d]];
    forall b: nat
      ensures b in fl' <==> FIRST_BLOCK <= b && 129 * (b - FIRST_BLOCK) < t + 1
    {
      if b - FIRST_BLOCK >= q + 1 {
        assert 129 * (b - FIRST_BLOCK) >= 129 * q + 129;
      }
    }
    forall b: nat | b in fl'
      ensures |fl'[b]| == Filled(t + 1, b)
    {
      if b < a.block {
        assert b - FIRST_BLOCK <= q - 1;
      }
    }
    forall b: nat, p: nat | b in fl' && p < |fl'[b]|
      ensures HoldsPage(fl', w, log, b, p)
    {
      if b != a.block || p < |fl[b]| {
        assert HoldsPage(fl, w, log, b, p);
      }
    }
  }

  /** A page whose program lies behind the position can be read and holds its write's data. */
  lemma ReadFits(fl: Flash, t: nat, w: WayId, log: seq<Block>, a: NandAddr)
    requires HoldsLog(fl, t, w, log)
    requires WayOf(a) == w && a.block >= FIRST_BLOCK && a.page < 128 && ProgPos(PageIndex(a)) < t
    ensures a.block in fl && a.page < |fl[a.block]|
    ensures 0 <= LogIndex(a) < |log| && fl[a.block][a.page] == log[LogIndex(a)]
  {
    var j := PageIndex(a);
    ProgPosFacts(j);
    assert j / 128 == a.block - FIRST_BLOCK && j % 128 == a.page;
    assert 129 * (a.block - FIRST_BLOCK) + a.page + 1 < t;
    var b: nat, p: nat := a.block, a.page;
    assert HoldsPage(fl, w, log, b, p);
    assert LogIndex(a) == 64 * (128 * (b - FIRST_BLOCK) + p) + w;
  }
}
