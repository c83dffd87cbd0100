/** Every interleaving of the two threads keeps the invariant of the RAM disk. */
module RamDiskSafety {
  import opened Base
  import opened Model
  import opened RamDisk
  import Ring = CmdQueue

  // ---------------------------------------------------------------- counting

  lemma OwingPush(q: seq<Entry>, e: Entry, c: nat)
    ensures Owing(q + [e], c) == Owing(q, c) + (if e.cmd == c then 1 else 0)
  {
    assert (q + [e])[..|q|] == q;
  }

  lemma {:induction false} OwingPop(q: seq<Entry>, c: nat)
    requires q != []
    ensures Owing(q, c) == Owing(q[1..], c) + (if q[0].cmd == c then 1 else 0)
    decreases |q|
  {
    var n := |q| - 1;
    if n == 0 {
      assert q[..n] == [] && q[1..] == [];
    } else {
      OwingPop(q[..n], c);
      assert q[..n][1..] == q[1..][..n - 1];
    }
  }

  /** A command that is owed nothing has no entry. */
  lemma {:induction false} OwedNothing(q: seq<Entry>, c: nat, k: nat)
    requires Owing(q, c) == 0 && k < |q|
    ensures q[k].cmd != c
    decreases |q|
  {
    var n := |q| - 1;
    if k == n {
    } else {
      OwedNothing(q[..n], c, k);
    }
  }

  lemma {:induction false} OwedFresh(q: seq<Entry>, c: nat)
    requires forall k :: 0 <= k < |q| ==> q[k].cmd != c
    ensures Owing(q, c) == 0
    decreases |q|
  {
    if q == [] {
    } else {
      OwedFresh(q[..|q| - 1], c);
    }
  }

  lemma ReplayMore(d0: Disk, hist: seq<Issued>, n: nat)
    requires n < |hist|
    ensures Replay(d0, hist[..n + 1]) == ApplyOne(Replay(d0, hist[..n]), hist[n])
  {
    assert hist[..n + 1][..n] == hist[..n];
  }

  // ---------------------------------------------------------------- what the copier sees

  /** The uncounted entries, and the positions of the first uncounted and the first uncopied one. */
  lemma PublishView(s: State)
    requires s.main.Filled? && s.main.cmd in s.note && !RingFull(s) && (s.copier != Waiting ==> Pending(s) != [])
    ensures var t := DoPublish(s);
            && Pending(t) == Pending(s) + [s.slots[s.tail]]
            && Uncounted(t) == Uncounted(s) + [s.slots[s.tail]]
            && CountedCount(t) == CountedCount(s) && CopiedCount(t) == CopiedCount(s)
  {
    Ring.PushWindow(s.slots, s.head, s.tail, s.slots[s.tail]);
    assert s.slots[s.tail := s.slots[s.tail]] == s.slots;
  }

  lemma CountView(s: State)
    requires s.copier == Copied && Pending(s) != []
    ensures s.head != s.tail && Pending(s)[0] == s.slots[s.head] == Uncounted(s)[0]
    ensures Uncounted(s) != [] && Uncounted(s.(copier := Counted)) == Uncounted(s)[1..]
    ensures CountedCount(s.(copier := Counted)) == CountedCount(s) + 1
    ensures CopiedCount(s.(copier := Counted)) == CopiedCount(s)
  {
  }

  lemma AdvanceView(s: State)
    requires s.copier == Counted && Pending(s) != []
    ensures var t := s.(head := (s.head + 1) % LIST_SIZE, copier := Waiting, base := s.base + 1);
            && Pending(t) == Pending(s)[1..] && Uncounted(t) == Uncounted(s)
            && CountedCount(t) == CountedCount(s) && CopiedCount(t) == CopiedCount(s)
  {
    Ring.PopWindow(s.slots, s.head, s.tail);
  }

  /** Filling the slot at the tail does not show. */
  lemma FillView(s: State, e: Entry)
    ensures var t := s.(slots := s.slots[s.tail := e]);
            Pending(t) == Pending(s) && Uncounted(t) == Uncounted(s)
  {
    var slots := s.slots[s.tail := e];
    if s.head <= s.tail {
      assert slots[s.head..s.tail] == s.slots[s.head..s.tail];
    } else {
      assert slots[s.head..] == s.slots[s.head..] && slots[..s.tail] == s.slots[..s.tail];
    }
  }

  // ---------------------------------------------------------------- pieces of the invariant

  lemma CmdAt(s: State, c: nat)
    requires CmdsOk(s) && c in s.cmds
    ensures CmdOk(s, c)
  {
  }

  lemma IssuedAt(s: State, c: nat, i: nat)
    requires CmdsOk(s) && c in s.cmds && c in s.note && i < |s.note[c].at|
    ensures IssuedOk(s, c, i)
  {
    CmdAt(s, c);
  }

  lemma DataAt(d0: Disk, s: State, c: nat)
    requires AllDataOk(d0, s) && c in s.cmds && c in s.note
    ensures DataOk(d0, s, c)
  {
  }

  lemma EntryAt(s: State, k: nat)
    requires EntriesOk(s) && k < |Uncounted(s)|
    ensures EntryOk(s, Uncounted(s)[k], CountedCount(s) + k)
  {
  }

  // ---------------------------------------------------------------- the copying thread

  /** The entry the copying thread is about to copy or to count. */
  lemma HeadEntry(s: State)
    requires RingOk(s) && EntriesOk(s) && CmdsOk(s) && s.head != s.tail && s.copier != Counted
    ensures var e := s.slots[s.head];
            && Uncounted(s) != [] && Uncounted(s)[0] == e && EntryOk(s, e, s.base) && s.base < |s.hist|
            && s.hist[s.base].typ == e.typ && s.hist[s.base].block == e.block < DISK_BLOCKS
            && (e.typ == Wr ==> e.i < |s.note[e.cmd].payload| && s.hist[s.base].data == s.note[e.cmd].payload[e.i])
  {
    var e := s.slots[s.head];
    assert Pending(s)[0] == e;
    EntryAt(s, 0);
    IssuedAt(s, e.cmd, e.i);
  }

  lemma CopyDisk(d0: Disk, s: State)
    requires RingOk(s) && EntriesOk(s) && CmdsOk(s) && MainOk(s) && AllDataOk(d0, s) && DiskOk(d0, s)
    requires s.copier == Waiting && s.head != s.tail && s.slots[s.head].block < DISK_BLOCKS
    ensures DiskOk(d0, DoCopy(s))
  {
    hide RingOk, EntriesOk, CmdsOk, MainOk, AllDataOk, Replay;
    HeadEntry(s);
    var e := s.slots[s.head];
    ReplayMore(d0, s.hist, s.base);
    CopyCount(s);
    if e.typ == Wr {
      WriteArrived(d0, s, e);
    }
  }

  lemma CopyCount(s: State)
    requires RingOk(s) && s.copier == Waiting && s.head != s.tail && s.slots[s.head].block < DISK_BLOCKS
    ensures CopiedCount(DoCopy(s)) == CopiedCount(s) + 1 == s.base + 1 <= |s.hist|
    ensures Uncounted(DoCopy(s)) == Uncounted(s) == Pending(s) && CountedCount(DoCopy(s)) == CountedCount(s) == s.base
  {
  }

  /** A write's entry finds the host's block in its buffer. */
  lemma WriteArrived(d0: Disk, s: State, e: Entry)
    requires CmdsOk(s) && MainOk(s) && AllDataOk(d0, s)
    requires e.cmd in s.cmds && e.cmd in s.note && e.i < |s.note[e.cmd].at| && e.i < |s.cmds[e.cmd].buf|
    requires e == EntryFor(e.cmd, s.cmds[e.cmd], e.i) && e.typ == Wr
    ensures e.i < |s.note[e.cmd].payload| && s.mem[e.buf] == s.note[e.cmd].payload[e.i]
  {
    CmdAt(s, e.cmd);
    DataAt(d0, s, e.cmd);
  }

  lemma CopyDataAt(d0: Disk, s: State, c: nat)
    requires RingOk(s) && EntriesOk(s) && CmdsOk(s) && MainOk(s) && Disjoint(s.cmds) && AllDataOk(d0, s) && DiskOk(d0, s)
    requires s.copier == Waiting && s.head != s.tail && s.slots[s.head].block < DISK_BLOCKS
    requires c in s.cmds && c in s.note
    ensures DataOk(d0, DoCopy(s), c)
  {
    hide RingOk, EntriesOk, CmdsOk, MainOk, Replay, AllDataOk, Ring.Window, Owing, IssuedBlocks;
    HeadEntry(s);
    CopyCount(s);
    var e := s.slots[s.head];
    DataAt(d0, s, c);
    CmdAt(s, c);
    forall i | 0 <= i < |s.note[c].at|
      ensures s.note[c].at[i] == s.base ==> c == e.cmd && i == e.i
    {
      IssuedAt(s, c, i);
    }
  }

  lemma CopyData(d0: Disk, s: State)
    requires RingOk(s) && EntriesOk(s) && CmdsOk(s) && MainOk(s) && Disjoint(s.cmds) && AllDataOk(d0, s) && DiskOk(d0, s)
    requires s.copier == Waiting && s.head != s.tail && s.slots[s.head].block < DISK_BLOCKS
    ensures AllDataOk(d0, DoCopy(s))
  {
    hide RingOk, EntriesOk, CmdsOk, MainOk, Disjoint, AllDataOk, DiskOk, DataOk, Ring.Window;
    var t := DoCopy(s);
    forall c | c in t.cmds && c in t.note
      ensures DataOk(d0, t, c)
    {
      CopyDataAt(d0, s, c);
    }
    AllDataFrom(d0, t);
  }

  lemma AllDataFrom(d0: Disk, t: State)
    requires forall c :: c in t.cmds && c in t.note ==> DataOk(d0, t, c)
    ensures AllDataOk(d0, t)
  {
  }

  lemma CopyKeeps(d0: Disk, s: State)
    requires Inv(d0, s) && Enabled(s, Copy)
    ensures Inv(d0, Do(s, Copy))
  {
    hide CmdsOk, AllDataOk, DiskOk, SentOk, Disjoint, EntriesOk, MainOk, RingOk;
    CopyDisk(d0, s);
    CopyData(d0, s);
    CopyCount(s);
    CopyRest(d0, s);
  }

  lemma CopyRest(d0: Disk, s: State)
    requires RingOk(s) && EntriesOk(s) && CmdsOk(s) && MainOk(s) && SentOk(d0, s)
    requires s.copier == Waiting && s.head != s.tail && s.slots[s.head].block < DISK_BLOCKS
    ensures var t := DoCopy(s); RingOk(t) && EntriesOk(t) && CmdsOk(t) && MainOk(t) && SentOk(d0, t)
  {
    hide CmdsOk, EntriesOk, Replay;
    CopyCount(s);
    SameCmdsKeep(s, DoCopy(s));
  }

  /** Commands, notes, history and uncounted entries are as before, and the main thread has issued
      as much of each command as before. */
  ghost predicate SameCmds(s: State, t: State) {
    && t.cmds == s.cmds && t.note == s.note && t.hist == s.hist
    && Uncounted(t) == Uncounted(s) && CountedCount(t) == CountedCount(s)
    && forall c :: c in s.cmds ==> IssuedBlocks(t.main, c, s.cmds[c].nblock) == IssuedBlocks(s.main, c, s.cmds[c].nblock)
  }

  lemma SameCmdsKeep(s: State, t: State)
    requires EntriesOk(s) && CmdsOk(s) && SameCmds(s, t)
    ensures EntriesOk(t) && CmdsOk(t)
  {
    hide Owing, Uncounted, CountedCount, CopiedCount, IssuedBlocks;
    forall c | c in t.cmds
      ensures CmdOk(t, c)
    {
      CmdAt(s, c);
      forall i | 0 <= i < |t.note[c].at|
        ensures IssuedOk(t, c, i)
      {
        IssuedAt(s, c, i);
      }
    }
    forall k | 0 <= k < |Uncounted(t)|
      ensures EntryOk(t, Uncounted(t)[k], CountedCount(t) + k)
    {
      EntryAt(s, k);
    }
  }

  /** What counting does, seen from the commands. */
  lemma CountStep(s: State)
    requires RingOk(s) && EntriesOk(s) && CmdsOk(s) && Enabled(s, Count)
    ensures var t, e := Do(s, Count), s.slots[s.head];
            && Uncounted(s) != [] && Uncounted(s)[0] == e && EntryOk(s, e, s.base) && CountedCount(s) == s.base
            && Uncounted(t) == Uncounted(s)[1..] && CountedCount(t) == s.base + 1 && CopiedCount(t) == CopiedCount(s)
            && t.cmds == s.cmds[e.cmd := s.cmds[e.cmd].(done := s.cmds[e.cmd].done + 1)]
            && t.note == s.note && t.hist == s.hist && t.main == s.main
  {
    hide EntriesOk, CmdsOk, EntryOk;
    CountView(s);
    HeadEntry(s);
  }

  lemma CountCmd(s: State, c: nat)
    requires RingOk(s) && EntriesOk(s) && CmdsOk(s) && Enabled(s, Count) && c in s.cmds
    ensures CmdOk(Do(s, Count), c)
  {
    hide RingOk, EntriesOk, CmdsOk, Enabled, Do, Owing, Uncounted, CountedCount, CopiedCount, IssuedBlocks;
    CountStep(s);
    var t := Do(s, Count);
    CmdAt(s, c);
    OwingPop(Uncounted(s), c);
    forall i | 0 <= i < |t.note[c].at|
      ensures IssuedOk(t, c, i)
    {
      IssuedAt(s, c, i);
    }
  }

  lemma CountEntries(s: State)
    requires RingOk(s) && EntriesOk(s) && CmdsOk(s) && Enabled(s, Count)
    ensures EntriesOk(Do(s, Count))
  {
    hide RingOk, CmdsOk, Do, Enabled, Uncounted, CountedCount, CopiedCount;
    CountStep(s);
    var t := Do(s, Count);
    forall k | 0 <= k < |Uncounted(t)|
      ensures EntryOk(t, Uncounted(t)[k], CountedCount(t) + k)
    {
      EntryAt(s, k + 1);
    }
  }

  lemma CountKeeps(d0: Disk, s: State)
    requires Inv(d0, s) && Enabled(s, Count)
    ensures Inv(d0, Do(s, Count))
  {
    hide CmdsOk, CmdOk, EntriesOk, AllDataOk, DiskOk, SentOk, MainOk, Owing, Replay;
    var t := Do(s, Count);
    CountStep(s);
    forall c | c in t.cmds
      ensures CmdOk(t, c)
    {
      CountCmd(s, c);
    }
    CmdsFrom(t);
    CountEntries(s);
    CountData(d0, s);
    CountMain(s);
  }

  lemma CountMain(s: State)
    requires MainOk(s) && RingOk(s) && EntriesOk(s) && CmdsOk(s) && Enabled(s, Count)
    ensures MainOk(Do(s, Count))
  {
    hide CmdsOk, EntriesOk;
    CountView(s);
    HeadEntry(s);
    if s.main.Sending? {
      SendingIsOwedNothing(s, 0);
    }
  }

  /** Once its count is full, no uncounted entry of a command is left. */
  lemma SendingIsOwedNothing(s: State, k: nat)
    requires CmdsOk(s) && MainOk(s) && s.main.Sending? && k < |Uncounted(s)|
    ensures Uncounted(s)[k].cmd != s.main.cmd
  {
    CmdAt(s, s.main.cmd);
    OwedNothing(Uncounted(s), s.main.cmd, k);
  }

  lemma CmdsFrom(t: State)
    requires forall c :: c in t.cmds ==> CmdOk(t, c)
    ensures CmdsOk(t)
  {
  }

  lemma CountData(d0: Disk, s: State)
    requires AllDataOk(d0, s) && DiskOk(d0, s) && SentOk(d0, s) && Enabled(s, Count)
    ensures var t := Do(s, Count); AllDataOk(d0, t) && DiskOk(d0, t) && SentOk(d0, t)
  {
    hide Replay;
    var t := Do(s, Count);
    forall c | c in t.cmds && c in t.note
      ensures DataOk(d0, t, c)
    {
      DataAt(d0, s, c);
    }
  }

  /** Moreover the data is as before, and the main thread has received as much of each command. */
  ghost predicate SameView(s: State, t: State) {
    && SameCmds(s, t) && t.mem == s.mem && t.disk == s.disk && CopiedCount(t) == CopiedCount(s)
    && forall c :: c in s.cmds ==> Arrived(t.main, c, s.cmds[c].nblock) == Arrived(s.main, c, s.cmds[c].nblock)
  }

  lemma SameViewKeeps(d0: Disk, s: State, t: State)
    requires Inv(d0, s) && SameView(s, t) && RingOk(t) && MainOk(t) && SentOk(d0, t)
    ensures Inv(d0, t)
  {
    hide Replay, EntriesOk, CmdsOk, Uncounted, CountedCount, CopiedCount, IssuedBlocks, Arrived, RingOk, MainOk,
         SentOk;
    SameCmdsKeep(s, t);
    forall c | c in t.cmds && c in t.note
      ensures DataOk(d0, t, c)
    {
      DataAt(d0, s, c);
    }
  }

  lemma AdvanceKeeps(d0: Disk, s: State)
    requires Inv(d0, s) && Enabled(s, Advance)
    ensures Inv(d0, Do(s, Advance))
  {
    hide Ring.Window, CmdsOk, EntriesOk, AllDataOk, DiskOk, SentOk, Disjoint, MainOk, RingOk, SameView;
    var t := Do(s, Advance);
    AdvanceSame(s);
    AdvanceMain(s);
    SentSame(d0, s, t);
    SameViewKeeps(d0, s, t);
  }

  lemma AdvanceSame(s: State)
    requires Enabled(s, Advance) && RingOk(s)
    ensures SameView(s, Do(s, Advance)) && RingOk(Do(s, Advance))
  {
    hide Ring.Window, IssuedBlocks, Arrived;
    AdvanceView(s);
  }

  lemma AdvanceMain(s: State)
    requires MainOk(s) && Enabled(s, Advance) && RingOk(s)
    ensures MainOk(Do(s, Advance))
  {
    if s.main.Filled? {
      Ring.NextSlot(s.tail, LIST_SIZE);
      Ring.NextSlot(s.head, LIST_SIZE);
    }
  }

  lemma SentSame(d0: Disk, s: State, t: State)
    requires SentOk(d0, s) && t.sent == s.sent && t.hist == s.hist
    ensures SentOk(d0, t)
  {
  }

  // ---------------------------------------------------------------- the main thread: small steps

  lemma EndIssueKeeps(d0: Disk, s: State)
    requires Inv(d0, s) && Enabled(s, EndIssue)
    ensures Inv(d0, Do(s, EndIssue))
  {
    hide CmdsOk, EntriesOk, AllDataOk, DiskOk, SentOk, Disjoint, Ring.Window, RingFull;
    var t := Do(s, EndIssue);
    CmdAt(s, s.main.cmd);
    SentSame(d0, s, t);
    SameViewKeeps(d0, s, t);
  }

  /** A finished read is in nobody's hands any more but the main thread's. */
  lemma RetireReadKeeps(d0: Disk, s: State)
    requires Inv(d0, s) && Enabled(s, Retire) && s.cmds[s.list[0]].typ == Rd
    ensures Inv(d0, Do(s, Retire))
  {
    hide CmdsOk, EntriesOk, AllDataOk, DiskOk, SentOk, Disjoint;
    var t := Do(s, Retire);
    CmdAt(s, s.list[0]);
    SentSame(d0, s, t);
    SameViewKeeps(d0, s, t);
  }

  /** Each block sent is what the disk held after the writes issued before it. */
  lemma SendKeeps(d0: Disk, s: State)
    requires Inv(d0, s) && Enabled(s, Send)
    ensures Inv(d0, Do(s, Send))
  {
    hide CmdsOk, EntriesOk, AllDataOk, DiskOk, Disjoint, SentOk;
    var t := Do(s, Send);
    SendSent(d0, s);
    SameViewKeeps(d0, s, t);
  }

  lemma SendSent(d0: Disk, s: State)
    requires CmdsOk(s) && MainOk(s) && AllDataOk(d0, s) && RingOk(s) && SentOk(d0, s) && Enabled(s, Send)
    ensures SentOk(d0, Do(s, Send))
  {
    hide CmdsOk, AllDataOk, Replay;
    var c, i := s.main.cmd, s.main.i;
    CmdAt(s, c);
    DataAt(d0, s, c);
    IssuedAt(s, c, i);
    if s.note[c].at[i] >= CountedCount(s) {
      SendingIsOwedNothing(s, s.note[c].at[i] - CountedCount(s));
      assert false;
    }
  }

  lemma FillKeeps(d0: Disk, s: State)
    requires Inv(d0, s) && Enabled(s, Fill)
    ensures Inv(d0, Do(s, Fill))
  {
    hide CmdsOk, EntriesOk, AllDataOk, DiskOk, SentOk, Disjoint, Ring.Window, RingFull;
    var t := Do(s, Fill);
    FillView(s, EntryFor(s.main.cmd, s.cmds[s.main.cmd], s.main.i));
    SentSame(d0, s, t);
    FillSame(s);
    FillMain(s);
    SameViewKeeps(d0, s, t);
  }

  lemma FillSame(s: State)
    requires Enabled(s, Fill)
    ensures SameView(s, Do(s, Fill))
    ensures RingOk(s) ==> RingOk(Do(s, Fill))
  {
    hide Ring.Window, RingFull;
    FillView(s, EntryFor(s.main.cmd, s.cmds[s.main.cmd], s.main.i));
  }

  lemma FillMain(s: State)
    requires MainOk(s) && Enabled(s, Fill)
    ensures MainOk(Do(s, Fill))
  {
  }

  // ---------------------------------------------------------------- the main thread: publishing

  lemma PublishStep(d0: Disk, s: State)
    requires Inv(d0, s) && Enabled(s, Publish)
    ensures var t, c, e := DoPublish(s), s.main.cmd, s.slots[s.tail]; var i := s.main.i;
            && c in s.cmds && i == |s.note[c].at| < s.cmds[c].nblock == |s.cmds[c].buf| && e == EntryFor(c, s.cmds[c], i)
            && e.block < DISK_BLOCKS && |s.hist| == CountedCount(s) + |Uncounted(s)| && CopiedCount(s) <= |s.hist|
            && Uncounted(t) == Uncounted(s) + [e]
            && CountedCount(t) == CountedCount(s) && CopiedCount(t) == CopiedCount(s)
            && t.cmds == s.cmds && t.main == Issuing(c, i + 1) && t.mem == s.mem && t.disk == s.disk
            && t.hist == s.hist + [Issued(e.typ, e.block, s.mem[e.buf], s.note[c].u, i)]
            && t.note == s.note[c := s.note[c].(at := s.note[c].at + [|s.hist|])]
            && (e.typ == Wr ==> i < |s.note[c].payload| && s.mem[e.buf] == s.note[c].payload[i])
            && RingOk(t)
  {
    hide CmdsOk, EntriesOk, AllDataOk, DiskOk, SentOk, Disjoint;
    PublishView(s);
    CmdAt(s, s.main.cmd);
    DataAt(d0, s, s.main.cmd);
  }

  lemma PublishCmd(d0: Disk, s: State, c: nat)
    requires Inv(d0, s) && Enabled(s, Publish) && c in s.cmds
    ensures CmdOk(DoPublish(s), c)
  {
    hide Inv, Owing, Uncounted, CountedCount, CopiedCount, DoPublish, CmdsOk, EntriesOk, MainOk, RingOk, AllDataOk, DiskOk,
         SentOk, Disjoint, IssuedOk;
    InvCmds(d0, s);
    PublishStep(d0, s);
    var t := DoPublish(s);
    CmdAt(s, c);
    OwingPush(Uncounted(s), s.slots[s.tail], c);
    forall i | 0 <= i < |t.note[c].at|
      ensures IssuedOk(t, c, i)
    {
      PublishIssued(d0, s, c, i);
    }
  }

  lemma PublishIssued(d0: Disk, s: State, c: nat, i: nat)
    requires Inv(d0, s) && Enabled(s, Publish) && c in s.cmds && c in DoPublish(s).note && i < |DoPublish(s).note[c].at|
    ensures IssuedOk(DoPublish(s), c, i)
  {
    hide Inv, Owing, Uncounted, CountedCount, CopiedCount, DoPublish, CmdsOk, EntriesOk, MainOk, RingOk, AllDataOk, DiskOk,
         SentOk, Disjoint, CmdOk;
    InvCmds(d0, s);
    PublishStep(d0, s);
    NoteAt(s, c);
    if i < |s.note[c].at| {
      IssuedAt(s, c, i);
    }
  }

  lemma NoteAt(s: State, c: nat)
    requires CmdsOk(s) && c in s.cmds
    ensures c in s.note && |s.cmds[c].buf| == s.cmds[c].nblock
  {
    CmdAt(s, c);
  }

  lemma InvCmds(d0: Disk, s: State)
    requires Inv(d0, s)
    ensures CmdsOk(s) && EntriesOk(s) && MainOk(s) && AllDataOk(d0, s) && DiskOk(d0, s) && SentOk(d0, s) && RingOk(s) && Disjoint(s.cmds)
  {
  }

  lemma PublishEntries(d0: Disk, s: State)
    requires Inv(d0, s) && Enabled(s, Publish)
    ensures EntriesOk(DoPublish(s))
  {
    hide Inv, Uncounted, CountedCount, CopiedCount, DoPublish, CmdsOk, MainOk;
    InvCmds(d0, s);
    PublishStep(d0, s);
    var t := DoPublish(s);
    forall k | 0 <= k < |Uncounted(t)|
      ensures EntryOk(t, Uncounted(t)[k], CountedCount(t) + k)
    {
      if k < |Uncounted(s)| {
        EntryAt(s, k);
      }
    }
  }

  lemma PublishData(d0: Disk, s: State)
    requires Inv(d0, s) && Enabled(s, Publish)
    ensures var t := DoPublish(s); AllDataOk(d0, t) && DiskOk(d0, t) && SentOk(d0, t)
  {
    hide Inv, Uncounted, CountedCount, CopiedCount, DoPublish, CmdsOk, MainOk, EntriesOk, Replay;
    InvCmds(d0, s);
    PublishStep(d0, s);
    PublishList(s);
    var t := DoPublish(s);
    assert forall n :: 0 <= n <= |s.hist| ==> t.hist[..n] == s.hist[..n];
    forall c | c in t.cmds && c in t.note
      ensures DataOk(d0, t, c)
    {
      DataAt(d0, s, c);
    }
  }

  lemma PublishMain(d0: Disk, s: State)
    requires Inv(d0, s) && Enabled(s, Publish)
    ensures MainOk(DoPublish(s))
  {
    hide Inv, DoPublish;
    InvCmds(d0, s);
    hide CmdsOk, EntriesOk, AllDataOk, DiskOk, SentOk, RingOk;
    PublishStep(d0, s);
    PublishList(s);
  }

  lemma PublishList(s: State)
    requires Enabled(s, Publish)
    ensures DoPublish(s).list == s.list && DoPublish(s).sent == s.sent
  {
  }

  lemma PublishKeeps(d0: Disk, s: State)
    requires Inv(d0, s) && Enabled(s, Publish)
    ensures Inv(d0, Do(s, Publish))
  {
    hide CmdsOk, CmdOk, EntriesOk, AllDataOk, DiskOk, SentOk, MainOk, RingOk;
    var t := Do(s, Publish);
    PublishStep(d0, s);
    forall c | c in t.cmds
      ensures CmdOk(t, c)
    {
      PublishCmd(d0, s, c);
    }
    CmdsFrom(t);
    PublishEntries(d0, s);
    PublishData(d0, s);
    PublishMain(d0, s);
  }

  // ---------------------------------------------------------------- the main thread: arrival

  lemma ReceiveKeeps(d0: Disk, s: State)
    requires Inv(d0, s) && Enabled(s, Receive)
    ensures Inv(d0, Do(s, Receive))
  {
    hide CmdsOk, EntriesOk, AllDataOk, DiskOk, SentOk, Disjoint, Replay;
    var t := Do(s, Receive);
    CmdAt(s, s.main.cmd);
    SentSame(d0, s, t);
    if s.main.i < s.cmds[s.main.cmd].nblock {
      SameCmdsKeep(s, t);
      ArriveData(d0, s);
    } else {
      SameViewKeeps(d0, s, t);
    }
  }

  lemma ArriveData(d0: Disk, s: State)
    requires CmdsOk(s) && MainOk(s) && Disjoint(s.cmds) && AllDataOk(d0, s) && DiskOk(d0, s) && Enabled(s, Receive)
    requires s.main.i < s.cmds[s.main.cmd].nblock
    ensures var t := DoReceive(s); AllDataOk(d0, t) && DiskOk(d0, t)
  {
    hide CmdsOk, AllDataOk, Replay;
    var t := DoReceive(s);
    CmdAt(s, s.main.cmd);
    forall c | c in t.cmds && c in t.note
      ensures DataOk(d0, t, c)
    {
      CmdAt(s, c);
      DataAt(d0, s, c);
    }
    AllDataFrom(d0, t);
  }

  // ---------------------------------------------------------------- the main thread: begin and free

  /** A command being allocated: from Idle, at an address and with buffers not in use. */
  ghost predicate Beginning(s: State, c: nat, r: CmdRec, payload: seq<Block>) {
    && s.main == Idle && c !in s.cmds && Unused(s.cmds, r.buf)
    && r.done == 0 && r.nblock == |r.buf| && (r.typ == Wr ==> |payload| == r.nblock)
  }

  lemma BeginCmd(d0: Disk, s: State, c: nat, r: CmdRec, payload: seq<Block>, d: nat)
    requires Inv(d0, s) && Beginning(s, c, r, payload) && (d in s.cmds || d == c)
    ensures CmdOk(Begin(s, c, r, payload), d)
  {
    hide Inv, Ring.Window, Owing;
    InvCmds(d0, s);
    hide CmdsOk, EntriesOk, AllDataOk, DiskOk, SentOk, RingOk, MainOk;
    var t := Begin(s, c, r, payload);
    assert Uncounted(t) == Uncounted(s);
    if d == c {
      forall k | 0 <= k < |Uncounted(s)|
        ensures Uncounted(s)[k].cmd != c
      {
        EntryAt(s, k);
      }
      OwedFresh(Uncounted(s), c);
    } else {
      CmdAt(s, d);
      forall i | 0 <= i < |t.note[d].at|
        ensures IssuedOk(t, d, i)
      {
        IssuedAt(s, d, i);
      }
    }
  }

  lemma BeginEntries(s: State, c: nat, r: CmdRec, payload: seq<Block>)
    requires EntriesOk(s) && Beginning(s, c, r, payload)
    ensures EntriesOk(Begin(s, c, r, payload))
  {
    hide Ring.Window;
    var t := Begin(s, c, r, payload);
    assert Uncounted(t) == Uncounted(s);
    forall k | 0 <= k < |Uncounted(t)|
      ensures EntryOk(t, Uncounted(t)[k], CountedCount(t) + k)
    {
      EntryAt(s, k);
    }
  }

  lemma BeginData(d0: Disk, s: State, c: nat, r: CmdRec, payload: seq<Block>)
    requires AllDataOk(d0, s) && Beginning(s, c, r, payload) && CmdsOk(s)
    ensures AllDataOk(d0, Begin(s, c, r, payload))
  {
    hide Replay, CmdsOk, Unused;
    var t := Begin(s, c, r, payload);
    forall d | d in t.cmds && d in t.note
      ensures DataOk(d0, t, d)
    {
      if d != c {
        CmdAt(s, d);
        DataAt(d0, s, d);
      }
    }
  }

  lemma BeginMain(s: State, c: nat, r: CmdRec, payload: seq<Block>)
    requires Beginning(s, c, r, payload) && MainOk(s) && Disjoint(s.cmds)
    ensures MainOk(Begin(s, c, r, payload)) && Disjoint(Begin(s, c, r, payload).cmds)
  {
  }

  lemma BeginKeeps(d0: Disk, s: State, c: nat, r: CmdRec, payload: seq<Block>)
    requires Inv(d0, s) && Beginning(s, c, r, payload)
    ensures Inv(d0, Begin(s, c, r, payload))
  {
    hide CmdsOk, CmdOk, EntriesOk, AllDataOk, Replay, Ring.Window, MainOk, Disjoint;
    var t := Begin(s, c, r, payload);
    forall d | d in t.cmds
      ensures CmdOk(t, d)
    {
      BeginCmd(d0, s, c, r, payload, d);
    }
    CmdsFrom(t);
    BeginEntries(s, c, r, payload);
    BeginData(d0, s, c, r, payload);
    BeginMain(s, c, r, payload);
  }

  /** The first command of the list is complete, and the main thread lets go of it. */
  ghost predicate Freeing(s: State) {
    && (s.main == Idle || s.main.Sending?) && s.list != []
    && s.list[0] in s.cmds && s.cmds[s.list[0]].done >= s.cmds[s.list[0]].nblock
  }

  /** No entry of the ring that is still to be counted refers to a command being freed. */
  lemma NoEntryOfFreed(s: State, k: nat)
    requires CmdsOk(s) && Freeing(s) && k < |Uncounted(s)| && MainOk(s)
    ensures Uncounted(s)[k].cmd != s.list[0]
  {
    CmdAt(s, s.list[0]);
    OwedNothing(Uncounted(s), s.list[0], k);
  }

  lemma FreeView(s: State)
    requires Freeing(s)
    ensures var t := Free(s);
            && Uncounted(t) == Uncounted(s) && CountedCount(t) == CountedCount(s) && CopiedCount(t) == CopiedCount(s)
            && t.hist == s.hist && t.mem == s.mem && t.disk == s.disk && t.main == Idle
            && t.cmds == s.cmds - {s.list[0]} && t.note == s.note - {s.list[0]}
  {
  }

  lemma FreeCmd(s: State, d: nat)
    requires CmdsOk(s) && MainOk(s) && Freeing(s) && d in s.cmds && d != s.list[0]
    ensures CmdOk(Free(s), d)
  {
    hide CmdsOk, Uncounted, CountedCount, CopiedCount, Owing;
    FreeView(s);
    var t := Free(s);
    CmdAt(s, d);
    forall i | 0 <= i < |t.note[d].at|
      ensures IssuedOk(t, d, i)
    {
      IssuedAt(s, d, i);
    }
  }

  lemma FreeKeeps(d0: Disk, s: State)
    requires Inv(d0, s) && Freeing(s)
    ensures Inv(d0, Free(s))
  {
    hide CmdsOk, CmdOk, EntriesOk, AllDataOk, SentOk, Uncounted, CountedCount, CopiedCount, Replay, RingOk, MainOk,
         Disjoint;
    FreeView(s);
    var t := Free(s);
    forall d | d in t.cmds
      ensures CmdOk(t, d)
    {
      FreeCmd(s, d);
    }
    CmdsFrom(t);
    forall k | 0 <= k < |Uncounted(t)|
      ensures EntryOk(t, Uncounted(t)[k], CountedCount(t) + k)
    {
      EntryAt(s, k);
      NoEntryOfFreed(s, k);
    }
    EntriesFrom(t);
    forall d | d in t.cmds && d in t.note
      ensures DataOk(d0, t, d)
    {
      FreeData(d0, s, d);
    }
    AllDataFrom(d0, t);
    FreeMain(s);
    FreeRing(s);
    SentSame(d0, s, t);
  }

  lemma EntriesFrom(t: State)
    requires forall k :: 0 <= k < |Uncounted(t)| ==> EntryOk(t, Uncounted(t)[k], CountedCount(t) + k)
    ensures EntriesOk(t)
  {
  }

  lemma FreeData(d0: Disk, s: State, d: nat)
    requires AllDataOk(d0, s) && MainOk(s) && Freeing(s) && d in s.cmds && d in s.note && d != s.list[0]
    ensures DataOk(d0, Free(s), d)
  {
    hide Replay, Ring.Window;
    DataAt(d0, s, d);
  }

  lemma FreeRing(s: State)
    requires RingOk(s) && Freeing(s)
    ensures RingOk(Free(s))
  {
  }

  lemma FreeMain(s: State)
    requires MainOk(s) && Freeing(s) && Disjoint(s.cmds)
    ensures MainOk(Free(s)) && Disjoint(Free(s).cmds)
  {
    var c, t := s.list[0], Free(s);
    forall d
      ensures d in t.list <==> d in t.cmds && !(t.main.Receiving? && t.main.cmd == d)
    {
      assert d in s.list <==> d == c || d in s.list[1..];
    }
  }

  // ---------------------------------------------------------------- every run

  lemma StepKeeps(d0: Disk, s: State, st: Step)
    requires Inv(d0, s) && Enabled(s, st)
    ensures Inv(d0, Do(s, st))
  {
    hide Inv, DoReceive, DoFill, DoPublish, DoCopy, Begin, Free;
    match st
    case StartRead(c, lba, buf) => BeginKeeps(d0, s, c, CmdRec(Rd, lba, |buf|, 0, buf), []);
    case StartWrite(c, lba, buf, payload) => BeginKeeps(d0, s, c, CmdRec(Wr, lba, |buf|, 0, buf), payload);
    case Receive => ReceiveKeeps(d0, s);
    case Fill => FillKeeps(d0, s);
    case Publish => PublishKeeps(d0, s);
    case EndIssue => EndIssueKeeps(d0, s);
    case Retire =>
      if s.cmds[s.list[0]].typ == Rd {
        RetireReadKeeps(d0, s);
      } else {
        FreeKeeps(d0, s);
      }
    case Send => SendKeeps(d0, s);
    case EndSend =>
      SendingFrees(d0, s);
      FreeKeeps(d0, s);
    case Copy => CopyKeeps(d0, s);
    case Count => CountKeeps(d0, s);
    case Advance => AdvanceKeeps(d0, s);
  }

  lemma SendingFrees(d0: Disk, s: State)
    requires Inv(d0, s) && Enabled(s, EndSend)
    ensures Freeing(s)
  {
    hide CmdsOk, EntriesOk, AllDataOk, DiskOk, SentOk, Disjoint, RingOk;
  }

  /** After ftl_init, with a disk of any contents and memory of any contents. */
  ghost predicate IsStart(d0: Disk, s: State) {
    && s.head == 0 && s.tail == 0 && s.cmds == map[] && s.list == [] && s.disk == d0
    && s.main == Idle && s.copier == Waiting && s.hist == [] && s.base == 0 && s.note == map[] && s.sent == {} && s.reqs == []
  }

  lemma StartKeeps(d0: Disk, s: State)
    requires IsStart(d0, s)
    ensures Inv(d0, s)
  {
  }

  ghost predicate IsRun(d0: Disk, states: seq<State>, steps: seq<Step>) {
    && |states| == |steps| + 1 && IsStart(d0, states[0])
    && forall k :: 0 <= k < |steps| ==> Enabled(states[k], steps[k]) && states[k + 1] == Do(states[k], steps[k])
  }

  lemma {:induction false} EveryRun(d0: Disk, states: seq<State>, steps: seq<Step>, k: nat)
    requires IsRun(d0, states, steps) && k < |states|
    ensures Inv(d0, states[k])
    decreases k
  {
    hide Inv, Enabled, Do, IsStart;
    if k == 0 {
      StartKeeps(d0, states[0]);
    } else {
      EveryRun(d0, states, steps, k - 1);
      assert Enabled(states[k - 1], steps[k - 1]) && states[k] == Do(states[k - 1], steps[k - 1]);
      StepKeeps(d0, states[k - 1], steps[k - 1]);
    }
  }

  // ---------------------------------------------------------------- what it means

  /** In every state of every interleaving, what is done of a live command, what of it waits in the
      ring uncounted, and what of it is not yet issued add up to the command. */
  lemma CountingIsExact(d0: Disk, states: seq<State>, steps: seq<Step>, k: nat, c: nat)
    requires IsRun(d0, states, steps) && k < |states| && c in states[k].cmds
    ensures var s := states[k]; var r := s.cmds[c];
            r.done + Owing(Uncounted(s), c) + (r.nblock - IssuedBlocks(s.main, c, r.nblock)) == r.nblock
  {
    hide Inv, IsRun, Enabled, Do;
    EveryRun(d0, states, steps, k);
    InvCmds(d0, states[k]);
    CmdAt(states[k], c);
  }

  /** Whenever the main thread frees a command, no entry still to be counted refers to it; and the
      copying thread, when it counts, always finds its command live. */
  lemma NoUseAfterFree(d0: Disk, states: seq<State>, steps: seq<Step>, k: nat)
    requires IsRun(d0, states, steps) && k < |steps|
    ensures var s, t := states[k], states[k + 1];
            forall c, i :: c in s.cmds && c !in t.cmds && 0 <= i < |Uncounted(t)| ==> Uncounted(t)[i].cmd != c
    ensures states[k].copier == Copied ==> Enabled(states[k], Count)
    ensures states[k].copier == Waiting && states[k].head != states[k].tail ==> Enabled(states[k], Copy)
  {
    hide Inv, Do, Owing, Uncounted;
    EveryRun(d0, states, steps, k);
    EveryRun(d0, states, steps, k + 1);
    InvCmds(d0, states[k]);
    InvCmds(d0, states[k + 1]);
    hide CmdsOk, MainOk, EntriesOk, RingOk, AllDataOk, DiskOk, SentOk;
    var t := states[k + 1];
    forall i | 0 <= i < |Uncounted(t)|
      ensures Uncounted(t)[i].cmd in t.cmds
    {
      EntryAt(t, i);
    }
    CopierSafe(states[k]);
  }

  lemma CopierSafe(s: State)
    requires RingOk(s) && EntriesOk(s) && CmdsOk(s)
    ensures s.copier == Copied ==> Enabled(s, Count)
    ensures s.copier == Waiting && s.head != s.tail ==> Enabled(s, Copy)
  {
    hide EntriesOk, CmdsOk, EntryOk;
    if s.copier == Copied {
      assert s.head != s.tail;
    }
    if s.copier != Counted && s.head != s.tail {
      HeadEntry(s);
      HeadLive(s, s.slots[s.head], s.base);
    }
  }

  /** The main thread never touches a freed command or a missing buffer: wherever it is, its next step
      is possible, except that it waits for room in the ring, and that exit ends it. */
  lemma MainSafe(d0: Disk, s: State)
    requires Inv(d0, s) && s.main != Idle && !s.main.Exited?
    ensures s.main.Receiving? ==> Enabled(s, Receive)
    ensures s.main.Issuing? ==> Enabled(s, EndIssue) || Enabled(s, Fill) || RingFull(s)
    ensures s.main.Filled? ==> Enabled(s, Publish)
    ensures s.main.Sending? ==> Enabled(s, Send) || Enabled(s, EndSend)
  {
    hide CmdsOk, EntriesOk, AllDataOk, DiskOk, SentOk, RingOk, Disjoint;
    CmdAt(s, s.main.cmd);
  }

  lemma HeadLive(s: State, e: Entry, at: nat)
    requires EntryOk(s, e, at)
    ensures e.cmd in s.cmds && e.block < DISK_BLOCKS
  {
  }

  /** Every block the host receives is what the disk held after exactly the writes issued before the
      read of that block, in every interleaving. */
  lemma ReadsSeeEarlierWrites(d0: Disk, states: seq<State>, steps: seq<Step>, k: nat, x: Sent)
    requires IsRun(d0, states, steps) && k < |states| && x in states[k].sent
    ensures var s := states[k];
            && x.at < |s.hist| && s.hist[x.at].typ == Rd && s.hist[x.at].block < DISK_BLOCKS
            && x.got == Replay(d0, s.hist[..x.at])[s.hist[x.at].block]
  {
    hide Inv, IsRun, Replay;
    EveryRun(d0, states, steps, k);
    InvCmds(d0, states[k]);
    hide CmdsOk, EntriesOk, MainOk, AllDataOk, DiskOk;
  }

  /** Reference reading of Replay: a block holds the data of the last write to it, or what it held
      at the start. */
  lemma {:induction false} ReplayIsLastWrite(d0: Disk, hist: seq<Issued>, b: nat)
    requires b < DISK_BLOCKS
    ensures (exists k :: 0 <= k < |hist| && hist[k].typ == Wr && hist[k].block == b && Replay(d0, hist)[b] == hist[k].data
                         && forall j :: k < j < |hist| ==> !(hist[j].typ == Wr && hist[j].block == b))
         || (Replay(d0, hist)[b] == d0[b] && forall j :: 0 <= j < |hist| ==> !(hist[j].typ == Wr && hist[j].block == b))
    decreases |hist|
  {
    if hist == [] {
    } else {
      var n := |hist| - 1;
      ReplayIsLastWrite(d0, hist[..n], b);
      if hist[n].typ == Wr && hist[n].block == b {
      } else if k :| 0 <= k < n && hist[..n][k].typ == Wr && hist[..n][k].block == b && Replay(d0, hist[..n])[b] == hist[..n][k].data
                     && forall j :: k < j < n ==> !(hist[..n][j].typ == Wr && hist[..n][j].block == b) {
        assert hist[k] == hist[..n][k];
        assert forall j :: 0 <= j < n ==> hist[..n][j] == hist[j];
      } else {
        assert forall j :: 0 <= j < n ==> hist[..n][j] == hist[j];
      }
    }
  }
}
