/** The RAM disk of ftl/polling_ram: the main thread issues 4 KiB copies through a ring to a copying
    thread, which counts them into the command they belong to. The two threads are interleaved step
    by step, each step one access to the shared variables, under sequential consistency. */
module RamDisk {
  import opened Base
  import opened Model
  import Ring = CmdQueue

  const LIST_SIZE: nat := 2048
  const DISK_BLOCKS: nat := 16384        // 64 MiB
  const LBA_WRAP: nat := 0x10_0000       // lba * 4096 is computed in 32 bits

  type PoolBlock = x: nat | x < 4096
  type Memory = s: seq<Block> | |s| == 4096 witness seq(4096, _ => Block([]))
  type Disk = s: seq<Block> | |s| == 16384 witness seq(16384, _ => Block([]))
  type Slots = s: seq<Entry> | |s| == 2048 witness seq(2048, _ => Entry(Rd, 0, 0, 0, 0))
  type SlotId = x: nat | x < 2048

  /** struct cmd_struct; the address of one names it. */
  datatype CmdRec = CmdRec(typ: CmdType, lba: nat, nblock: nat, done: nat, buf: seq<PoolBlock>)

  /** struct io_entry; i, which block of its command it copies, is history. */
  datatype Entry = Entry(typ: CmdType, cmd: nat, block: nat, buf: PoolBlock, i: nat)

  /** A command as the host gives it. */
  datatype Request = Request(typ: CmdType, lba: nat, nblock: nat, payload: seq<Block>)

  /** What is remembered of a live command: the blocks the host sends, the positions of its issued
      blocks in the history, and which request of the host it is. */
  datatype Note = Note(payload: seq<Block>, at: seq<nat>, u: nat)

  /** One issued copy, of block i of request u; data is what a write stores. */
  datatype Issued = Issued(typ: CmdType, block: nat, data: Block, u: nat, i: nat)

  /** Block i of the read that is request u was handed to the host. */
  datatype Sent = Sent(at: nat, got: Block, u: nat, i: nat)

  /** Where the main thread is: in ftl_write before the copies are issued; between the copies of
      ftl_read or ftl_write; having filled a slot without having moved the tail; in ftl_run sending;
      or gone through exit in ram_disk_buf. */
  datatype MainPc =
    | Idle
    | Receiving(cmd: nat, i: nat)
    | Issuing(cmd: nat, i: nat)
    | Filled(cmd: nat, i: nat)
    | Sending(cmd: nat, i: nat)
    | Exited(cmd: nat, i: nat)

  /** Where the copying thread is: waiting for an entry, having copied it, having counted it. */
  datatype CopyPc = Waiting | Copied | Counted

  datatype State = State(
    // shared memory
    slots: Slots, head: SlotId, tail: SlotId, cmds: map<nat, CmdRec>, list: seq<nat>, mem: Memory, disk: Disk,
    // program counters
    main: MainPc, copier: CopyPc,
    // history: what was issued, how many entries have left the ring, notes, what the host received, and
    // what it has asked for
    hist: seq<Issued>, base: nat, note: map<nat, Note>, sent: set<Sent>, reqs: seq<Request>)

  // ---------------------------------------------------------------- the abstract disk

  function ApplyOne(d: Disk, x: Issued): Disk {
    if x.typ == Wr && x.block < DISK_BLOCKS then d[x.block := x.data] else d
  }

  /** The disk after the writes of a history, one after the other. */
  function Replay(d0: Disk, hist: seq<Issued>): Disk {
    if hist == [] then d0 else ApplyOne(Replay(d0, hist[..|hist| - 1]), hist[|hist| - 1])
  }

  /** ram_disk_buf: which block of the disk an LBA leads to; out of range from DISK_BLOCKS on. */
  function BlockOf(lba: nat): nat {
    lba % LBA_WRAP
  }

  // ---------------------------------------------------------------- steps of the main thread

  /** The entries in the ring, oldest first. */
  ghost function Pending(s: State): seq<Entry> {
    Ring.Window(s.slots, s.head, s.tail)
  }

  predicate RingFull(s: State) {
    s.head == (s.tail + 1) % LIST_SIZE
  }

  /** Buffers that no live command uses, without repetition. */
  ghost predicate Unused(cmds: map<nat, CmdRec>, buf: seq<PoolBlock>) {
    && NoDup(buf)
    && (forall c, i, j :: c in cmds && 0 <= i < |buf| && 0 <= j < |cmds[c].buf| ==> buf[i] != cmds[c].buf[j])
  }

  datatype Step =
    | StartRead(cmd: nat, lba: nat, buf: seq<PoolBlock>)
    | StartWrite(cmd: nat, lba: nat, buf: seq<PoolBlock>, payload: seq<Block>)
    | Receive
    | Fill
    | Publish
    | EndIssue
    | Retire
    | Send
    | EndSend
    | Copy
    | Count
    | Advance

  ghost predicate Enabled(s: State, st: Step) {
    match st
    case StartRead(c, lba, buf) => s.main == Idle && c !in s.cmds && Unused(s.cmds, buf)
    case StartWrite(c, lba, buf, payload) => s.main == Idle && c !in s.cmds && Unused(s.cmds, buf) && |payload| == |buf|
    case Receive => s.main.Receiving? && s.main.cmd in s.cmds && s.main.cmd in s.note
    case Fill => s.main.Issuing? && s.main.cmd in s.cmds && s.main.i < s.cmds[s.main.cmd].nblock
                 && s.main.i < |s.cmds[s.main.cmd].buf|
                 && (BlockOf(s.cmds[s.main.cmd].lba + s.main.i) < DISK_BLOCKS ==> !RingFull(s))
    case Publish => s.main.Filled? && s.main.cmd in s.note
    case EndIssue => s.main.Issuing? && s.main.cmd in s.cmds && s.main.i >= s.cmds[s.main.cmd].nblock
    case Retire => s.main == Idle && s.list != [] && s.list[0] in s.cmds && s.cmds[s.list[0]].done >= s.cmds[s.list[0]].nblock
    case Send => s.main.Sending? && s.main.cmd in s.cmds && s.main.cmd in s.note
                 && s.main.i < s.cmds[s.main.cmd].nblock && s.main.i < |s.cmds[s.main.cmd].buf| && s.main.i < |s.note[s.main.cmd].at|
    case EndSend => s.main.Sending? && s.main.cmd in s.cmds && s.main.i >= s.cmds[s.main.cmd].nblock && s.list != []
    case Copy => s.copier == Waiting && s.head != s.tail && s.slots[s.head].block < DISK_BLOCKS
    case Count => s.copier == Copied && s.slots[s.head].cmd in s.cmds
    case Advance => s.copier == Counted
  }

  /** The entry for block i of a command. */
  function EntryFor(c: nat, r: CmdRec, i: nat): Entry
    requires i < |r.buf|
  {
    Entry(r.typ, c, BlockOf(r.lba + i), r.buf[i], i)
  }

  function Begin(s: State, c: nat, r: CmdRec, payload: seq<Block>): State {
    s.(cmds := s.cmds[c := r], note := s.note[c := Note(payload, [], |s.reqs|)],
       reqs := s.reqs + [Request(r.typ, r.lba, r.nblock, payload)],
       list := if r.typ == Rd then s.list + [c] else s.list,
       main := if r.typ == Rd then Issuing(c, 0) else Receiving(c, 0))
  }

  /** list_del and free of the first command. */
  function Free(s: State): State
    requires s.list != []
  {
    s.(list := s.list[1..], cmds := s.cmds - {s.list[0]}, note := s.note - {s.list[0]}, main := Idle)
  }

  ghost function Do(s: State, st: Step): State
    requires Enabled(s, st)
  {
    match st
    case StartRead(c, lba, buf) => Begin(s, c, CmdRec(Rd, lba, |buf|, 0, buf), [])
    case StartWrite(c, lba, buf, payload) => Begin(s, c, CmdRec(Wr, lba, |buf|, 0, buf), payload)
    case Receive => DoReceive(s)
    case Fill => DoFill(s)
    case Publish => DoPublish(s)
    case EndIssue => s.(main := Idle)
    case Retire => if s.cmds[s.list[0]].typ == Rd then s.(main := Sending(s.list[0], 0)) else Free(s)
    case Send =>
      var c, i := s.main.cmd, s.main.i;
      s.(sent := s.sent + {Sent(s.note[c].at[i], s.mem[s.cmds[c].buf[i]], s.note[c].u, i)}, main := Sending(c, i + 1))
    case EndSend => Free(s)
    case Copy => DoCopy(s)
    case Count =>
      var c := s.slots[s.head].cmd;
      s.(cmds := s.cmds[c := s.cmds[c].(done := s.cmds[c].done + 1)], copier := Counted)
    case Advance => s.(head := (s.head + 1) % LIST_SIZE, copier := Waiting, base := s.base + 1)
  }

  /** One block of a write arrives by DMA; after the last one the command joins the list. */
  function DoReceive(s: State): State
    requires s.main.Receiving? && s.main.cmd in s.cmds && s.main.cmd in s.note
  {
    var c, i := s.main.cmd, s.main.i;
    if i < s.cmds[c].nblock && i < |s.cmds[c].buf| && i < |s.note[c].payload| then
      s.(mem := s.mem[s.cmds[c].buf[i] := s.note[c].payload[i]], main := Receiving(c, i + 1))
    else s.(list := s.list + [c], main := Issuing(c, 0))
  }

  /** ram_disk_buf, and the assignments to the slot at the tail. */
  function DoFill(s: State): State
    requires s.main.Issuing? && s.main.cmd in s.cmds && s.main.i < |s.cmds[s.main.cmd].buf|
  {
    var c, i := s.main.cmd, s.main.i;
    var e := EntryFor(c, s.cmds[c], i);
    if e.block >= DISK_BLOCKS then s.(main := Exited(c, i))
    else s.(slots := s.slots[s.tail := e], main := Filled(c, i))
  }

  /** list_io_move_tail: the entry becomes visible to the copying thread. */
  function DoPublish(s: State): State
    requires s.main.Filled? && s.main.cmd in s.note
  {
    var c, i := s.main.cmd, s.main.i;
    var e := s.slots[s.tail];
    s.(tail := (s.tail + 1) % LIST_SIZE, main := Issuing(c, i + 1),
       hist := s.hist + [Issued(e.typ, e.block, s.mem[e.buf], s.note[c].u, i)],
       note := s.note[c := s.note[c].(at := s.note[c].at + [|s.hist|])])
  }

  /** memcpy in one direction or the other. */
  function DoCopy(s: State): State
    requires s.slots[s.head].block < DISK_BLOCKS
  {
    var e := s.slots[s.head];
    if e.typ == Rd then s.(mem := s.mem[e.buf := s.disk[e.block]], copier := Copied)
    else s.(disk := s.disk[e.block := s.mem[e.buf]], copier := Copied)
  }

  // ---------------------------------------------------------------- the invariant

  /** How many issued copies have been made, and how many have been counted. */
  function CopiedCount(s: State): nat {
    s.base + (if s.copier == Waiting then 0 else 1)
  }

  function CountedCount(s: State): nat {
    s.base + (if s.copier == Counted then 1 else 0)
  }

  /** How many of q's entries from position k on belong to a command. */
  function Owing(q: seq<Entry>, c: nat): nat {
    if q == [] then 0 else Owing(q[..|q| - 1], c) + (if q[|q| - 1].cmd == c then 1 else 0)
  }

  /** The entries not yet counted into their commands. */
  ghost function Uncounted(s: State): seq<Entry> {
    var q := Pending(s);
    if s.copier == Counted && q != [] then q[1..] else q
  }

  /** How many blocks of a command the main thread has issued. */
  function IssuedBlocks(main: MainPc, c: nat, nblock: nat): nat {
    if main == Idle || main.Sending? || main.cmd != c then nblock
    else if main.Receiving? then 0
    else main.i
  }

  ghost predicate RingOk(s: State) {
    && (s.copier != Waiting ==> Pending(s) != [])
    && s.base + |Pending(s)| == |s.hist|
  }

  /** An entry that is not yet counted belongs to a live command, and is the copy its history
      position says. */
  ghost predicate EntryOk(s: State, e: Entry, at: nat) {
    && e.cmd in s.cmds && e.cmd in s.note && e.block < DISK_BLOCKS
    && e.i < |s.cmds[e.cmd].buf| && e == EntryFor(e.cmd, s.cmds[e.cmd], e.i)
    && e.i < |s.note[e.cmd].at| && s.note[e.cmd].at[e.i] == at
  }

  ghost predicate EntriesOk(s: State) {
    var q := Uncounted(s);
    forall k :: 0 <= k < |q| ==> EntryOk(s, q[k], CountedCount(s) + k)
  }

  /** The record of an issued block of a live command. */
  ghost predicate IssuedOk(s: State, c: nat, i: nat)
    requires c in s.cmds && c in s.note && i < |s.note[c].at|
  {
    var r, at := s.cmds[c], s.note[c].at[i];
    && at < |s.hist| && i < |r.buf|
    && s.hist[at].typ == r.typ && s.hist[at].block == BlockOf(r.lba + i) < DISK_BLOCKS
    && (r.typ == Wr ==> i < |s.note[c].payload| && s.hist[at].data == s.note[c].payload[i])
    && (at >= CountedCount(s) ==>
          at - CountedCount(s) < |Uncounted(s)| && Uncounted(s)[at - CountedCount(s)] == EntryFor(c, r, i))
  }

  /** A live command: its buffers, its blocks issued so far, and its count: what is done, what is in
      the ring uncounted and what is not yet issued make up the command. */
  ghost predicate CmdOk(s: State, c: nat)
    requires c in s.cmds
  {
    var r := s.cmds[c];
    && c in s.note && |r.buf| == r.nblock
    && (r.typ == Wr ==> |s.note[c].payload| == r.nblock)
    && IssuedBlocks(s.main, c, r.nblock) <= r.nblock
    && |s.note[c].at| == IssuedBlocks(s.main, c, r.nblock)
    && r.done + Owing(Uncounted(s), c) == |s.note[c].at|
    && (forall i :: 0 <= i < |s.note[c].at| ==> IssuedOk(s, c, i))
  }

  ghost predicate CmdsOk(s: State) {
    forall c :: c in s.cmds ==> CmdOk(s, c)
  }

  ghost predicate MainOk(s: State) {
    && (s.main != Idle ==> s.main.cmd in s.cmds && s.main.i <= s.cmds[s.main.cmd].nblock)
    && (s.main.Receiving? ==> s.cmds[s.main.cmd].typ == Wr)
    && (s.main.Filled? ==>
          var r := s.cmds[s.main.cmd];
          s.main.i < |r.buf| && s.slots[s.tail] == EntryFor(s.main.cmd, r, s.main.i) && s.slots[s.tail].block < DISK_BLOCKS
          && !RingFull(s))
    && (s.main.Sending? ==>
          s.list != [] && s.list[0] == s.main.cmd && s.cmds[s.main.cmd].typ == Rd && s.cmds[s.main.cmd].done == s.cmds[s.main.cmd].nblock)
    && NoDup(s.list)
    && (forall c :: c in s.list <==> c in s.cmds && !(s.main.Receiving? && s.main.cmd == c))
  }

  /** Live commands do not share buffers. */
  ghost predicate Disjoint(cmds: map<nat, CmdRec>) {
    forall c, i, d, j ::
      (c in cmds && d in cmds && 0 <= i < |cmds[c].buf| && 0 <= j < |cmds[d].buf| && cmds[c].buf[i] == cmds[d].buf[j])
      ==> c == d && i == j
  }

  /** How many blocks of a write have arrived. */
  function Arrived(main: MainPc, c: nat, nblock: nat): nat {
    if main.Receiving? && main.cmd == c then main.i else nblock
  }

  /** A write's buffer holds what the host sent, from arrival on; a read's holds, once copied, what
      the disk held after the writes issued before it. */
  ghost predicate DataOk(d0: Disk, s: State, c: nat)
    requires c in s.cmds && c in s.note
  {
    var r := s.cmds[c];
    if r.typ == Wr then
      forall i :: 0 <= i < Arrived(s.main, c, r.nblock) && i < |r.buf| && i < |s.note[c].payload| ==> s.mem[r.buf[i]] == s.note[c].payload[i]
    else
      forall i ::
        (0 <= i < |s.note[c].at| && i < |r.buf| && s.note[c].at[i] < CopiedCount(s) && s.note[c].at[i] < |s.hist|
         && BlockOf(r.lba + i) < DISK_BLOCKS)
        ==> s.mem[r.buf[i]] == Replay(d0, s.hist[..s.note[c].at[i]])[BlockOf(r.lba + i)]
  }

  ghost predicate AllDataOk(d0: Disk, s: State) {
    forall c :: c in s.cmds && c in s.note ==> DataOk(d0, s, c)
  }

  ghost predicate DiskOk(d0: Disk, s: State) {
    CopiedCount(s) <= |s.hist| && s.disk == Replay(d0, s.hist[..CopiedCount(s)])
  }

  /** What the host has received of a read is the disk after exactly the writes issued before it. */
  ghost predicate SentOk(d0: Disk, s: State) {
    forall x :: x in s.sent ==>
      && x.at < |s.hist| && s.hist[x.at].typ == Rd && s.hist[x.at].block < DISK_BLOCKS
      && x.got == Replay(d0, s.hist[..x.at])[s.hist[x.at].block]
  }

  ghost predicate Inv(d0: Disk, s: State) {
    && RingOk(s) && EntriesOk(s) && CmdsOk(s) && MainOk(s) && Disjoint(s.cmds)
    && AllDataOk(d0, s) && DiskOk(d0, s) && SentOk(d0, s)
  }
}
