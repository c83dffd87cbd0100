/** The in-storage programs of ssd/: request slots in memory shared with the firmware, and the loops
    of wordcount_ssd.cc, wordcount_ssd_single.cc and grep_ssd_single.cc that stream a file through
    them. */
module IscStream {
  import opened Tokens
  import WordCount
  import Grep

  const SECTSIZE: nat := 4096
  const READ_CHUNK: nat := 1048576
  const SLOT_SECTORS: nat := 1024

  datatype Status = IDLE | REQ | WIP | DONE

  /** struct shared without the payload; filled is the firmware's progress. */
  datatype Slot = Slot(status: Status, lba: nat, sectorCnt: nat, payloadOfs: seq<nat>, filled: nat)

  /** The firmware takes one step for slot pp, delivering into one of the four buffers of a sector. */
  datatype Move = Move(pp: SlotId, ofs: Offset)

  type SlotId = x: nat | x < 2
  type Offset = x: nat | x < 4

  function ToSect(bytes: nat): nat {
    (bytes + SECTSIZE - 1) / SECTSIZE
  }

  function Min(a: nat, b: nat): nat {
    if a <= b then a else b
  }

  /** isc_read_request returns anything but 0 for a request it refuses. The programs do not look at it:
      refused, in their contracts, counts what they would have missed. */
  function Refusals(r: int): nat {
    if r == 0 then 0 else 1
  }

  /** payload[idx][ofs] of slot pp. */
  function BufIndex(pp: nat, idx: nat, ofs: nat): (k: nat)
    requires pp < 2 && idx < SLOT_SECTORS && ofs < 4
    ensures k < 8192 && k / 4096 == pp
  {
    4096 * pp + 4 * idx + ofs
  }

  ghost predicate ValidSlot(s: Slot) {
    && |s.payloadOfs| == SLOT_SECTORS && (forall k :: 0 <= k < SLOT_SECTORS ==> s.payloadOfs[k] < 4)
    && s.sectorCnt <= SLOT_SECTORS && s.filled <= s.sectorCnt
    && (s.status == DONE ==> s.filled == s.sectorCnt)
  }

  // ---------------------------------------------------------------- the file behind the sectors

  /** The first size bytes from sector lba on. */
  ghost function FileBytes(disk: seq<string>, lba: nat, size: nat): (file: string)
    requires lba + ToSect(size) <= |disk| && forall k :: 0 <= k < |disk| ==> |disk[k]| == SECTSIZE
    ensures |file| == size
  {
    seq(size, k requires 0 <= k < size => disk[lba + k / SECTSIZE][k % SECTSIZE])
  }

  /** A piece of one sector is where the sector's number says. */
  lemma PieceOfFile(disk: seq<string>, lba: nat, size: nat, t: nat, n: nat)
    requires lba + ToSect(size) <= |disk| && forall k :: 0 <= k < |disk| ==> |disk[k]| == SECTSIZE
    requires n <= SECTSIZE && SECTSIZE * t + n <= size && lba + t < |disk|
    ensures FileBytes(disk, lba, size)[SECTSIZE * t..SECTSIZE * t + n] == disk[lba + t][..n]
  {
    var file, sector := FileBytes(disk, lba, size), disk[lba + t];
    forall k | 0 <= k < n
      ensures file[SECTSIZE * t + k] == sector[k]
    {
      assert (SECTSIZE * t + k) / SECTSIZE == t && (SECTSIZE * t + k) % SECTSIZE == k;
    }
    assert forall k :: 0 <= k < n ==> file[SECTSIZE * t..SECTSIZE * t + n][k] == sector[k];
  }

  /** left bytes of a file are left after whole chunks. */
  predicate Chunked(fileSize: nat, left: nat) {
    left <= fileSize && (fileSize - left) % READ_CHUNK == 0
  }

  /** How many sectors come before them. */
  function BaseOf(fileSize: nat, left: nat): nat
    requires left <= fileSize
  {
    (fileSize - left) / SECTSIZE
  }

  lemma ChunkFacts(fileSize: nat, left: nat)
    requires Chunked(fileSize, left) && left > 0
    ensures var base, size := BaseOf(fileSize, left), Min(READ_CHUNK, left);
            && SECTSIZE * base == fileSize - left
            && (size % SECTSIZE == 0 || SECTSIZE * base + size == fileSize)
            && base + ToSect(size) <= ToSect(fileSize) && ToSect(size) <= SLOT_SECTORS
            && (left > READ_CHUNK ==> Chunked(fileSize, left - size) && BaseOf(fileSize, left - size) == base + ToSect(size))
            && (left > size ==> left > READ_CHUNK)
  {
    var q := (fileSize - left) / READ_CHUNK;
    assert fileSize - left == READ_CHUNK * q == SECTSIZE * (256 * q);
    assert BaseOf(fileSize, left) == 256 * q;
    var size := Min(READ_CHUNK, left);
    assert (256 * q * SECTSIZE + size + SECTSIZE - 1) / SECTSIZE == 256 * q + ToSect(size);
    if left > READ_CHUNK {
      assert fileSize - (left - size) == SECTSIZE * (256 * q + 256);
      assert (fileSize - (left - size)) % READ_CHUNK == (READ_CHUNK * (q + 1)) % READ_CHUNK == 0;
    }
  }

  /** All sectors but the last are full. */
  lemma SectFacts(size: nat)
    requires size > 0
    ensures ToSect(size) >= 1
    ensures size == SECTSIZE * (ToSect(size) - 1) + (if size % SECTSIZE == 0 then SECTSIZE else size % SECTSIZE)
  {
  }

  lemma FirstChunk(fileSize: nat)
    ensures Chunked(fileSize, fileSize) && BaseOf(fileSize, fileSize) == 0
    ensures ToSect(Min(READ_CHUNK, fileSize)) <= SLOT_SECTORS && ToSect(Min(READ_CHUNK, fileSize)) <= ToSect(fileSize)
  {
  }

  lemma RunNothing(kind: Kind, file: string)
    ensures Run(kind, START, file[..0]) == START
  {
  }

  /** What a program does with its payloads: process of wordcount_ssd.cc or process of grep_ssd_single.cc. */
  datatype Splitter = Counting(wc: WordCount.WordCounter) | Grepping(gr: Grep.Grepper) {
    function Splits(): Kind {
      if Counting? then Words else Lines
    }

    function Limit(): nat {
      if Counting? then WordCount.LAST_SIZE else Grep.LAST_SIZE
    }

    function Repr(): set<object> {
      match this
      case Counting(wc) => {wc, wc.last}
      case Grepping(gr) => {gr, gr.last}
    }

    ghost predicate Valid()
      reads Repr()
    {
      match this
      case Counting(wc) => wc.Valid()
      case Grepping(gr) => gr.Valid()
    }

    ghost function Scanned(): Scan
      reads Repr()
    {
      match this
      case Counting(wc) => wc.scan
      case Grepping(gr) => gr.scan
    }

    method Process(payload: array<char>, len: nat)
      requires Valid() && len <= payload.Length && payload !in Repr()
      requires Fits(Splits(), Scanned(), payload[..len], Limit())
      modifies Repr(), payload
      ensures Valid() && Scanned() == Run(Splits(), old(Scanned()), old(payload[..len]))
    {
      hide Run, Fits;
      match this
      case Counting(wc) =>
        wc.Process(payload, len);
      case Grepping(gr) =>
        gr.Process(payload, len);
    }

    /** process on one piece of the file, after everything before it. */
    method ProcessPiece(payload: array<char>, len: nat, ghost file: string, ghost p: nat)
      requires 0 < len <= payload.Length && p + len <= |file| && (len >= Limit() || p + len == |file|)
      requires payload[..len] == file[p..p + len] && WellFormed(Splits(), file, Limit())
      requires Valid() && payload !in Repr() && Scanned() == Run(Splits(), START, file[..p])
      modifies Repr(), payload
      ensures Valid() && Scanned() == Run(Splits(), START, file[..p + len])
    {
      hide Run, Fits, WellFormed;
      PieceFits(Splits(), file, Limit(), p, len);
      RunAppend(Splits(), START, file[..p], file[p..p + len]);
      assert file[..p] + file[p..p + len] == file[..p + len];
      Process(payload, len);
    }
  }

  /** Shared memory, and the firmware behind it. Which steps the firmware takes at each point where
      the program lets it is free: future lists them; after that it serves the slot polled. */
  class Device {
    const disk: seq<string>
    const bufs: seq<array<char>>
    var slots: seq<Slot>
    var future: seq<seq<Move>>

    ghost predicate Shape() {
      && |bufs| == 8192 && (forall k :: 0 <= k < 8192 ==> bufs[k].Length == SECTSIZE)
      && (forall j, k :: 0 <= j < k < 8192 ==> bufs[j] != bufs[k])
      && (forall k :: 0 <= k < |disk| ==> |disk[k]| == SECTSIZE)
    }

    /** Sector idx of slot pp, counted from lba, is in the buffer that isc_payload returns. */
    ghost predicate Holds(pp: nat, idx: nat)
      requires Shape() && pp < |slots| == 2 && ValidSlot(slots[pp]) && idx < slots[pp].sectorCnt
      reads this`slots, bufs
    {
      slots[pp].lba + idx < |disk| && bufs[BufIndex(pp, idx, slots[pp].payloadOfs[idx])][..] == disk[slots[pp].lba + idx]
    }

    ghost predicate Filled(pp: nat, from: nat, to: nat)
      requires Shape() && pp < |slots| == 2 && ValidSlot(slots[pp]) && to <= slots[pp].sectorCnt
      reads this`slots, bufs
    {
      forall idx :: from <= idx < to ==> Holds(pp, idx)
    }

    /** A request reads from the disk, and what is done of it is in the buffers. */
    ghost predicate InOrder(pp: nat)
      requires Shape() && pp < |slots| == 2
      reads this`slots, bufs
    {
      && ValidSlot(slots[pp])
      && (slots[pp].status != IDLE ==> slots[pp].lba + slots[pp].sectorCnt <= |disk|)
      && (slots[pp].status in {WIP, DONE} ==> Filled(pp, 0, slots[pp].filled))
    }

    ghost predicate Valid()
      reads this`slots, bufs
    {
      Shape() && |slots| == 2 && InOrder(0) && InOrder(1)
    }

    /** What the buffers of slot pp hold. */
    ghost function Buffers(pp: nat): (b: seq<seq<char>>)
      requires pp < 2 && Shape()
      reads bufs
      ensures |b| == 4096
    {
      seq(4096, j requires 0 <= j < 4096 reads bufs => bufs[4096 * pp + j][..])
    }

    /** The slot belongs to the program: the firmware neither changes it nor its buffers. */
    twostate predicate Untouched(pp: nat)
      requires pp < 2 && Shape()
      reads this`slots, bufs
    {
      |old(slots)| == |slots| == 2 && slots[pp] == old(slots)[pp] && Buffers(pp) == old(Buffers(pp))
    }

    /** Steps left until slot pp is served. */
    ghost function Work(pp: nat): nat
      requires pp < |slots| == 2 && ValidSlot(slots[pp])
      reads this`slots
    {
      match slots[pp].status
      case REQ => slots[pp].sectorCnt + 2
      case WIP => slots[pp].sectorCnt - slots[pp].filled + 1
      case _ => 0
    }

    /** No buffer but buffer k has changed. */
    twostate predicate OneWritten(k: nat)
      requires Shape()
      reads bufs
    {
      forall j :: 0 <= j < 8192 && j != k ==> bufs[j][..] == old(bufs[j][..])
    }

    twostate lemma BufferKept(j: nat, new k: nat)
      requires Shape() && OneWritten(k) && j < 8192 && j != k
      ensures bufs[j][..] == old(bufs[j][..])
    {
    }

    /** Sectors from..to of slot pp stay where they were, and buffer k is not among theirs. */
    twostate predicate Elsewhere(pp: nat, from: nat, to: nat, k: nat)
      requires pp < 2 && |old(slots)| == |slots| == 2
      reads this`slots
    {
      && ValidSlot(old(slots)[pp]) && ValidSlot(slots[pp]) && to <= slots[pp].sectorCnt == old(slots)[pp].sectorCnt
      && slots[pp].lba == old(slots)[pp].lba
      && forall idx :: from <= idx < to ==>
           slots[pp].payloadOfs[idx] == old(slots)[pp].payloadOfs[idx] && BufIndex(pp, idx, slots[pp].payloadOfs[idx]) != k
    }

    /** Sectors held elsewhere than in the buffer written are held still. */
    twostate lemma StillFilled(pp: nat, new from: nat, new to: nat, new k: nat)
      requires pp < 2 && Shape() && |old(slots)| == |slots| == 2 && OneWritten(k) && Elsewhere(pp, from, to, k)
      ensures old(Filled(pp, from, to)) ==> Filled(pp, from, to)
    {
      hide OneWritten;
      forall idx: nat | from <= idx < to && old(Holds(pp, idx))
        ensures Holds(pp, idx)
      {
        var j := BufIndex(pp, idx, slots[pp].payloadOfs[idx]);
        assert j != k;
        BufferKept(j, k);
      }
    }

    /** Writing a buffer of one slot leaves the other slot alone. */
    twostate lemma OtherUntouched(pp: nat, new k: nat)
      requires pp < 2 && Shape() && |old(slots)| == |slots| == 2 && OneWritten(k)
      requires slots[pp] == old(slots)[pp] && !(4096 * pp <= k < 4096 * pp + 4096)
      ensures Untouched(pp)
    {
      forall j | 0 <= j < 4096
        ensures Buffers(pp)[j] == old(Buffers(pp))[j]
      {
        assert bufs[4096 * pp + j][..] == old(bufs[4096 * pp + j][..]);
      }
    }

    /** The sector is copied into buffer k. */
    method Fill(k: nat, sector: nat)
      requires Shape() && k < 8192 && sector < |disk|
      modifies bufs[k]
      ensures bufs[k][..] == disk[sector] && OneWritten(k)
    {
      var buf := bufs[k];
      forall i | 0 <= i < SECTSIZE {
        buf[i] := disk[sector][i];
      }
      assert buf[..] == disk[sector];
    }

    /** The firmware delivers the next sector of slot pp. */
    method Deliver(m: Move)
      requires Valid() && slots[m.pp].status == WIP && slots[m.pp].filled < slots[m.pp].sectorCnt
      modifies this`slots, bufs[BufIndex(m.pp, slots[m.pp].filled, m.ofs)]
      ensures Valid() && Untouched(1 - m.pp)
      ensures var s := old(slots[m.pp]);
              slots[m.pp] == s.(payloadOfs := s.payloadOfs[s.filled := m.ofs], filled := s.filled + 1)
    {
      hide Buffers, OneWritten;
      var pp, s := m.pp, slots[m.pp];
      var k := BufIndex(pp, s.filled, m.ofs);
      assert Filled(pp, 0, s.filled);
      Fill(k, s.lba + s.filled);
      slots := slots[pp := s.(payloadOfs := s.payloadOfs[s.filled := m.ofs], filled := s.filled + 1)];
      StillFilled(pp, 0, s.filled, k);
      assert Holds(pp, s.filled);
      OtherUntouched(1 - pp, k);
      KeepsFilled(1 - pp);
    }

    /** What holds of a slot that was not touched goes on holding. */
    twostate lemma KeepsFilled(pp: nat)
      requires pp < 2 && Shape() && |old(slots)| == |slots| == 2 && Untouched(pp)
      requires ValidSlot(slots[pp])
      ensures forall from: nat, to: nat :: to <= slots[pp].sectorCnt && old(Filled(pp, from, to)) ==> Filled(pp, from, to)
    {
      forall idx | 0 <= idx < slots[pp].sectorCnt && old(Holds(pp, idx))
        ensures Holds(pp, idx)
      {
        var k := BufIndex(pp, idx, slots[pp].payloadOfs[idx]);
        assert 4096 * pp <= k < 4096 * pp + 4096;
        assert bufs[k][..] == Buffers(pp)[k - 4096 * pp];
      }
    }

    /** The firmware takes up the request of slot pp, or reports it done. */
    method Change(pp: SlotId, status: Status)
      requires Valid()
      requires if status == WIP then slots[pp].status == REQ
               else status == DONE && slots[pp].status == WIP && slots[pp].filled == slots[pp].sectorCnt
      modifies this`slots
      ensures Valid() && Untouched(1 - pp)
      ensures slots[pp] == if status == WIP then old(slots[pp]).(status := WIP, filled := 0) else old(slots[pp]).(status := DONE)
    {
      var s := slots[pp];
      if status == WIP {
        slots := slots[pp := s.(status := WIP, filled := 0)];
      } else {
        assert Filled(pp, 0, s.filled);
        slots := slots[pp := s.(status := DONE)];
        forall idx | 0 <= idx < s.filled
          ensures Holds(pp, idx)
        {
          assert old(Holds(pp, idx));
        }
      }
      KeepsFilled(1 - pp);
    }

    /** All the firmware may do: serve requests, leaving alone what belongs to the program. */
    twostate predicate Ran()
      requires Shape()
      reads this`slots, bufs
    {
      && |old(slots)| == |slots| == 2
      && (old(slots[0].status) in {IDLE, DONE} ==> Untouched(0))
      && (old(slots[1].status) in {IDLE, DONE} ==> Untouched(1))
      && forall pp :: 0 <= pp < 2 ==>
           && (slots[pp].status == IDLE <==> old(slots[pp].status) == IDLE)
           && slots[pp].lba == old(slots[pp].lba) && slots[pp].sectorCnt == old(slots[pp].sectorCnt)
    }

    /** One step of the firmware for slot pp. */
    method Step(m: Move)
      requires Valid()
      modifies this`slots, bufs
      ensures Valid() && Ran()
      ensures slots[1 - m.pp] == old(slots[1 - m.pp])
      ensures Work(m.pp) <= old(Work(m.pp)) && (old(slots[m.pp].status) in {REQ, WIP} ==> Work(m.pp) < old(Work(m.pp)))
    {
      hide Filled, Holds;
      var s := slots[m.pp];
      if s.status == REQ {
        Change(m.pp, WIP);
      } else if s.status == WIP {
        if s.filled < s.sectorCnt {
          Deliver(m);
        } else {
          Change(m.pp, DONE);
        }
      }
    }

    /** What the firmware does at one point of the program. */
    method Firmware()
      requires Valid()
      modifies this`slots, this`future, bufs
      ensures Valid() && Ran() && future == if old(future) == [] then [] else old(future)[1..]
      ensures Work(0) <= old(Work(0)) && Work(1) <= old(Work(1))
    {
      hide Filled, Holds, Buffers;
      if future == [] {
        return;
      }
      var moves := future[0];
      future := future[1..];
      for i := 0 to |moves|
        invariant Valid() && Ran() && future == old(future)[1..]
        invariant Work(0) <= old(Work(0)) && Work(1) <= old(Work(1))
      {
        Step(moves[i]);
      }
    }

    // ---------------------------------------------------------------- isc_ssd.h and isc_ssd.c

    /** isc_check_done: a done slot becomes idle, with the sectors asked for in its buffers. */
    method IscCheckDone(pp: SlotId) returns (done: bool)
      requires Valid()
      modifies this`slots
      ensures Valid() && done == (old(slots[pp].status) == DONE)
      ensures slots == if done then old(slots)[pp := old(slots[pp]).(status := IDLE)] else old(slots)
      ensures done ==> Filled(pp, 0, slots[pp].sectorCnt)
    {
      if slots[pp].status == DONE {
        assert Filled(pp, 0, slots[pp].filled);
        slots := slots[pp := slots[pp].(status := IDLE)];
        forall idx | 0 <= idx < slots[pp].sectorCnt
          ensures Holds(pp, idx)
        {
          assert old(Holds(pp, idx));
        }
        if slots[1 - pp].status in {WIP, DONE} {
          KeepsFilled(1 - pp);
        }
        return true;
      }
      return false;
    }

    /** isc_read_request: -1 unless the slot is idle. */
    method IscReadRequest(pp: SlotId, lba: nat, bytes: nat) returns (r: int)
      requires Valid() && ToSect(bytes) <= SLOT_SECTORS && lba + ToSect(bytes) <= |disk|
      modifies this`slots
      ensures Valid() && r == if old(slots[pp].status) == IDLE then 0 else -1
      ensures r != 0 ==> slots == old(slots)
      ensures r == 0 ==> Untouched(1 - pp)
      ensures r == 0 ==> slots[pp].status == REQ && slots[pp].lba == lba && slots[pp].sectorCnt == ToSect(bytes)
    {
      if slots[pp].status != IDLE {
        return -1;
      }
      slots := slots[pp := slots[pp].(status := REQ, lba := lba, sectorCnt := ToSect(bytes), filled := 0)];
      KeepsFilled(1 - pp);
      return 0;
    }

    /** isc_payload. */
    function IscPayload(pp: SlotId, idx: nat): array<char>
      requires Shape() && |slots| == 2 && ValidSlot(slots[pp]) && idx < SLOT_SECTORS
      reads this`slots
    {
      bufs[BufIndex(pp, idx, slots[pp].payloadOfs[idx])]
    }

    /** The firmware between two polls of slot pp. */
    method Serve(pp: SlotId)
      requires Valid() && slots[pp].status in {REQ, WIP}
      modifies this`slots, this`future, bufs
      ensures Valid() && Ran()
      ensures |future| + Work(pp) < old(|future| + Work(pp))
    {
      hide Filled, Holds;
      if future != [] {
        Firmware();
      } else {
        Step(Move(pp, 0));
      }
    }

    /** What polling slot pp leaves alone: the slot's request, and the other slot if it was the program's. */
    twostate predicate Waited(pp: SlotId)
      requires Shape()
      reads this`slots, bufs
    {
      && |old(slots)| == |slots| == 2
      && slots[pp].lba == old(slots[pp].lba) && slots[pp].sectorCnt == old(slots[pp].sectorCnt)
      && (old(slots[1 - pp].status) in {IDLE, DONE} ==> Untouched(1 - pp))
      && (slots[1 - pp].status == IDLE <==> old(slots[1 - pp].status) == IDLE)
    }

    /** The firmware goes on, and isc_check_done looks. */
    method Poll(pp: SlotId) returns (done: bool)
      requires Valid() && slots[pp].status in {REQ, WIP}
      modifies this`slots, this`future, bufs
      ensures Valid() && Waited(pp)
      ensures if done then slots[pp].status == IDLE && Filled(pp, 0, slots[pp].sectorCnt) else slots[pp].status in {REQ, WIP}
      ensures |future| + Work(pp) < old(|future| + Work(pp))
    {
      hide Filled, Holds, Buffers;
      Serve(pp);
      done := IscCheckDone(pp);
    }

    /** The polling loop: whatever the firmware does meanwhile, it ends with the slot idle and served,
        and a slot that was the program's is still as it was. */
    method Await(pp: SlotId)
      requires Valid() && slots[pp].status != IDLE
      modifies this`slots, this`future, bufs
      ensures Valid() && slots[pp].status == IDLE && Filled(pp, 0, slots[pp].sectorCnt) && Waited(pp)
    {
      hide Filled, Holds, Buffers;
      var done := IscCheckDone(pp);
      while !done
        invariant Valid() && Waited(pp)
        invariant if done then slots[pp].status == IDLE && Filled(pp, 0, slots[pp].sectorCnt) else slots[pp].status in {REQ, WIP}
        decreases |future| + Work(pp)
      {
        done := Poll(pp);
      }
    }

    /** What a program sees of the other slot while it works on slot pp. */
    twostate predicate OtherServed(pp: SlotId)
      requires Shape()
      reads this`slots
    {
      && |old(slots)| == |slots| == 2
      && (slots[1 - pp].status == IDLE <==> old(slots[1 - pp].status) == IDLE)
      && slots[1 - pp].lba == old(slots[1 - pp].lba) && slots[1 - pp].sectorCnt == old(slots[1 - pp].sectorCnt)
    }

    /** The firmware works on while the program processes slot pp. */
    method FirmwareMeanwhile(pp: SlotId, ghost from: nat)
      requires Valid() && slots[pp].status == IDLE && from <= slots[pp].sectorCnt && Filled(pp, from, slots[pp].sectorCnt)
      modifies this`slots, this`future, bufs
      ensures Valid() && slots[pp] == old(slots[pp]) && Filled(pp, from, slots[pp].sectorCnt) && OtherServed(pp)
    {
      Firmware();
      KeepsFilled(pp);
    }

    // -------------------------------------------------------------- the loop over a chunk

    /** The program wrote into the buffer of sector idx of its slot: the later sectors are still there,
        and what the firmware delivers elsewhere is too. */
    twostate lemma PieceWritten(pp: SlotId, new idx: nat)
      requires old(Valid()) && slots == old(slots) && slots[pp].status == IDLE && idx < slots[pp].sectorCnt
      requires old(Filled(pp, idx, slots[pp].sectorCnt))
      requires OneWritten(BufIndex(pp, idx, slots[pp].payloadOfs[idx]))
      ensures Valid() && Filled(pp, idx + 1, slots[pp].sectorCnt)
    {
      hide Holds, Buffers, OneWritten;
      ghost var k := BufIndex(pp, idx, slots[pp].payloadOfs[idx]);
      StillFilled(pp, idx + 1, slots[pp].sectorCnt, k);
      OtherUntouched(1 - pp, k);
      KeepsFilled(1 - pp);
    }

    /** The program's buffers are its own. */
    ghost predicate Apart(sp: Splitter) {
      forall b :: b in bufs ==> b !in sp.Repr()
    }

    /** One sector's payload goes to process, which writes into it: the slot is the program's. */
    method SplitPiece(sp: Splitter, pp: SlotId, idx: nat, len: nat, ghost file: string, ghost p: nat)
      requires Valid() && slots[pp].status == IDLE && idx < slots[pp].sectorCnt && Filled(pp, idx, slots[pp].sectorCnt)
      requires 0 < len <= SECTSIZE && p + len <= |file| && (len == SECTSIZE || p + len == |file|)
      requires slots[pp].lba + idx < |disk| && disk[slots[pp].lba + idx][..len] == file[p..p + len]
      requires WellFormed(sp.Splits(), file, sp.Limit())
      requires sp.Valid() && Apart(sp) && sp.Scanned() == Run(sp.Splits(), START, file[..p])
      modifies sp.Repr(), IscPayload(pp, idx)
      ensures Valid() && Filled(pp, idx + 1, slots[pp].sectorCnt)
      ensures sp.Valid() && sp.Scanned() == Run(sp.Splits(), START, file[..p + len])
    {
      hide Run, WellFormed;
      assert Holds(pp, idx);
      assert IscPayload(pp, idx)[..len] == file[p..p + len];
      sp.ProcessPiece(IscPayload(pp, idx), len, file, p);
      assert OneWritten(BufIndex(pp, idx, slots[pp].payloadOfs[idx]));
      PieceWritten(pp, idx);
    }

    /** Sector idx of slot pp is processed while the firmware works on; it is sector t of the file. */
    method SplitSector(sp: Splitter, pp: SlotId, idx: nat, len: nat, ghost lba: nat, ghost t: nat, ghost fileSize: nat)
      requires Valid() && slots[pp].status == IDLE && idx < slots[pp].sectorCnt && Filled(pp, idx, slots[pp].sectorCnt)
      requires slots[pp].lba + idx == lba + t && lba + ToSect(fileSize) <= |disk|
      requires 0 < len <= SECTSIZE && SECTSIZE * t + len <= fileSize && (len == SECTSIZE || SECTSIZE * t + len == fileSize)
      requires WellFormed(sp.Splits(), FileBytes(disk, lba, fileSize), sp.Limit())
      requires sp.Valid() && Apart(sp) && sp.Scanned() == Run(sp.Splits(), START, FileBytes(disk, lba, fileSize)[..SECTSIZE * t])
      modifies this`slots, this`future, bufs, sp.Repr()
      ensures Valid() && slots[pp] == old(slots[pp]) && Filled(pp, idx + 1, slots[pp].sectorCnt) && OtherServed(pp)
      ensures sp.Valid() && sp.Scanned() == Run(sp.Splits(), START, FileBytes(disk, lba, fileSize)[..SECTSIZE * t + len])
    {
      hide Run, WellFormed, Filled, Holds, FileBytes;
      FirmwareMeanwhile(pp, idx);
      PieceOfFile(disk, lba, fileSize, t, len);
      SplitPiece(sp, pp, idx, len, FileBytes(disk, lba, fileSize), SECTSIZE * t);
    }

    /** The sectors of one chunk, all but the last in full. base is how many sectors of the file
        precede the chunk, size how many bytes the chunk has. */
    method SplitChunk(sp: Splitter, pp: SlotId, size: nat, ghost lba: nat, ghost base: nat, ghost fileSize: nat)
      requires Valid() && slots[pp].status == IDLE && Filled(pp, 0, slots[pp].sectorCnt)
      requires size > 0 && slots[pp].lba == lba + base && slots[pp].sectorCnt == ToSect(size)
      requires lba + ToSect(fileSize) <= |disk| && SECTSIZE * base + size <= fileSize
      requires size % SECTSIZE == 0 || SECTSIZE * base + size == fileSize
      requires WellFormed(sp.Splits(), FileBytes(disk, lba, fileSize), sp.Limit())
      requires sp.Valid() && Apart(sp) && sp.Scanned() == Run(sp.Splits(), START, FileBytes(disk, lba, fileSize)[..SECTSIZE * base])
      modifies this`slots, this`future, bufs, sp.Repr()
      ensures Valid() && slots[pp].status == IDLE && OtherServed(pp)
      ensures sp.Valid() && sp.Scanned() == Run(sp.Splits(), START, FileBytes(disk, lba, fileSize)[..SECTSIZE * base + size])
    {
      hide Run, WellFormed, Filled, Holds, FileBytes, ToSect;
      SectFacts(size);
      var j := 0;
      while j < ToSect(size) - 1
        invariant j <= ToSect(size) - 1
        invariant Valid() && slots[pp] == old(slots[pp]) && Filled(pp, j, slots[pp].sectorCnt) && OtherServed(pp)
        invariant sp.Valid() && sp.Scanned() == Run(sp.Splits(), START, FileBytes(disk, lba, fileSize)[..SECTSIZE * (base + j)])
      {
        SplitSector(sp, pp, j, SECTSIZE, lba, base + j, fileSize);
        j := j + 1;
      }
      if size % SECTSIZE == 0 {
        SplitSector(sp, pp, j, SECTSIZE, lba, base + j, fileSize);
      } else {
        SplitSector(sp, pp, j, size % SECTSIZE, lba, base + j, fileSize);
      }
    }

    // -------------------------------------------------------------- wordcount_ssd.cc

    /** The next chunk is requested in the other slot while slot pp waits to be processed. */
    method AskNext(pp: SlotId, lba: nat, bytes: nat) returns (r: int)
      requires Valid() && slots[pp].status == IDLE && Filled(pp, 0, slots[pp].sectorCnt) && slots[1 - pp].status == IDLE
      requires ToSect(bytes) <= SLOT_SECTORS && lba + ToSect(bytes) <= |disk|
      modifies this`slots
      ensures Valid() && r == 0 && slots[pp] == old(slots[pp]) && Filled(pp, 0, slots[pp].sectorCnt)
      ensures slots[1 - pp].status == REQ && slots[1 - pp].lba == lba && slots[1 - pp].sectorCnt == ToSect(bytes)
    {
      r := IscReadRequest(1 - pp, lba, bytes);
      KeepsFilled(pp);
    }

    /** Between chunks of wordcount_ssd.cc: the next chunk is being read into slot idx, the other slot
        is the program's. */
    ghost predicate Streaming(idx: SlotId, left: nat, lba: nat, readSize: nat, start: nat, fileSize: nat)
      requires |slots| == 2
      reads this`slots
    {
      && left <= fileSize && readSize == Min(READ_CHUNK, left)
      && (left > 0 ==>
            && Chunked(fileSize, left) && lba == start + BaseOf(fileSize, left)
            && slots[idx].status != IDLE && slots[idx].lba == lba && slots[idx].sectorCnt == ToSect(readSize)
            && slots[1 - idx].status == IDLE)
    }

    /** The loop body: wait for slot idx, ask for the next chunk in the other one, process slot idx.
        r is what isc_read_request returned, 0 when nothing was left to ask for. */
    method NextChunk(wc: WordCount.WordCounter, idx: SlotId, left: nat, lba: nat, readSize: nat,
                     ghost start: nat, ghost fileSize: nat)
      returns (left': nat, lba': nat, readSize': nat, r: int)
      requires Valid() && left > 0 && Streaming(idx, left, lba, readSize, start, fileSize) && start + ToSect(fileSize) <= |disk|
      requires WellFormed(Words, FileBytes(disk, start, fileSize), WordCount.LAST_SIZE)
      requires wc.Valid() && wc.last !in bufs
      requires wc.scan == Run(Words, START, FileBytes(disk, start, fileSize)[..fileSize - left])
      modifies this`slots, this`future, bufs, wc, wc.last
      ensures Valid() && left' < left && Streaming(1 - idx, left', lba', readSize', start, fileSize) && r == 0
      ensures wc.Valid() && wc.scan == Run(Words, START, FileBytes(disk, start, fileSize)[..fileSize - left'])
    {
      hide WellFormed, Filled, Holds, FileBytes, Run, Chunked, BaseOf, ToSect;
      Await(idx);
      ghost var base := BaseOf(fileSize, left);
      ChunkFacts(fileSize, left);
      left' := left - readSize;
      lba' := lba + ToSect(readSize);
      readSize' := Min(READ_CHUNK, left');
      r := 0;
      if left' > 0 {
        ChunkFacts(fileSize, left');
        r := AskNext(idx, lba', readSize');
      }
      SplitChunk(Counting(wc), idx, readSize, start, base, fileSize);
    }

    /** main of wordcount_ssd.cc: while one slot is processed, the next chunk is read into the other.
        No request is refused, every one finds its slot idle, and the words counted are those of the
        whole file. */
    method WordCountMain(wc: WordCount.WordCounter, start: nat, fileSize: nat) returns (refused: nat)
      requires Valid() && slots[0].status == IDLE && slots[1].status == IDLE && start + ToSect(fileSize) <= |disk|
      requires WellFormed(Words, FileBytes(disk, start, fileSize), WordCount.LAST_SIZE)
      requires wc.Valid() && wc.scan == START && wc.last !in bufs
      modifies this`slots, this`future, bufs, wc, wc.last
      ensures refused == 0
      ensures wc.Valid() && wc.lastLen == 0 && wc.scan == Run(Words, START, FileBytes(disk, start, fileSize))
      ensures wc.mp == WordCount.Tally(Split(Words, FileBytes(disk, start, fileSize)))
    {
      hide WellFormed, Filled, Holds, FileBytes, Run, Chunked, BaseOf, ToSect;
      FirstChunk(fileSize);
      ghost var file := FileBytes(disk, start, fileSize);
      var left: nat, lba, readSize := fileSize, start, Min(READ_CHUNK, fileSize);
      var r := IscReadRequest(0, lba, readSize);
      refused := Refusals(r);
      RunNothing(Words, file);
      var idx: SlotId := 0;
      while left > 0
        invariant Valid() && Streaming(idx, left, lba, readSize, start, fileSize) && refused == 0
        invariant wc.Valid() && wc.scan == Run(Words, START, file[..fileSize - left])
        decreases left
      {
        left, lba, readSize, r := NextChunk(wc, idx, left, lba, readSize, start, fileSize);
        refused := refused + Refusals(r);
        idx := 1 - idx;
      }
      assert file[..fileSize] == file;
      NothingPending(Words, file, WordCount.LAST_SIZE);
    }

    // -------------------------------------------------------------- the single-slot programs

    /** The loop of wordcount_ssd_single.cc and of grep_ssd_single.cc: chunk by chunk through slot 0. */
    method ReadThrough(sp: Splitter, start: nat, fileSize: nat) returns (refused: nat)
      requires Valid() && slots[0].status == IDLE && start + ToSect(fileSize) <= |disk|
      requires WellFormed(sp.Splits(), FileBytes(disk, start, fileSize), sp.Limit())
      requires sp.Valid() && Apart(sp) && sp.Scanned() == START
      modifies this`slots, this`future, bufs, sp.Repr()
      ensures refused == 0 && sp.Valid() && sp.Scanned() == Run(sp.Splits(), START, FileBytes(disk, start, fileSize))
    {
      hide WellFormed, Filled, Holds, FileBytes, Run, Chunked, BaseOf, ToSect;
      FirstChunk(fileSize);
      ghost var file := FileBytes(disk, start, fileSize);
      var left: nat, lba, readSize := fileSize, start, Min(READ_CHUNK, fileSize);
      RunNothing(sp.Splits(), file);
      refused := 0;
      while left > 0
        invariant left <= fileSize && readSize == Min(READ_CHUNK, left) && Valid() && slots[0].status == IDLE && refused == 0
        invariant left > 0 ==> Chunked(fileSize, left) && lba == start + BaseOf(fileSize, left)
        invariant sp.Valid() && sp.Scanned() == Run(sp.Splits(), START, file[..fileSize - left])
      {
        ghost var base := BaseOf(fileSize, left);
        ChunkFacts(fileSize, left);
        var r := IscReadRequest(0, lba, readSize);
        refused := refused + Refusals(r);
        Await(0);
        var curReadSize := readSize;
        left := left - readSize;
        lba := lba + ToSect(readSize);
        readSize := Min(READ_CHUNK, left);
        SplitChunk(sp, 0, curReadSize, start, base, fileSize);
      }
      assert file[..fileSize] == file;
    }

    /** main of wordcount_ssd_single.cc: the same count through one slot. */
    method WordCountSingleMain(wc: WordCount.WordCounter, start: nat, fileSize: nat) returns (refused: nat)
      requires Valid() && slots[0].status == IDLE && start + ToSect(fileSize) <= |disk|
      requires WellFormed(Words, FileBytes(disk, start, fileSize), WordCount.LAST_SIZE)
      requires wc.Valid() && wc.scan == START && wc.last !in bufs
      modifies this`slots, this`future, bufs, wc, wc.last
      ensures refused == 0
      ensures wc.Valid() && wc.lastLen == 0 && wc.scan == Run(Words, START, FileBytes(disk, start, fileSize))
      ensures wc.mp == WordCount.Tally(Split(Words, FileBytes(disk, start, fileSize)))
    {
      hide WellFormed, Filled, Holds, FileBytes, Run, ToSect;
      refused := ReadThrough(Counting(wc), start, fileSize);
      NothingPending(Words, FileBytes(disk, start, fileSize), WordCount.LAST_SIZE);
    }

    /** main of grep_ssd_single.cc: the offsets recorded are those of the whole file's matching lines. */
    method GrepMain(gr: Grep.Grepper, start: nat, fileSize: nat) returns (refused: nat)
      requires Valid() && slots[0].status == IDLE && start + ToSect(fileSize) <= |disk|
      requires WellFormed(Lines, FileBytes(disk, start, fileSize), Grep.LAST_SIZE)
      requires gr.Valid() && gr.scan == START && gr.last !in bufs
      modifies this`slots, this`future, bufs, gr, gr.last
      ensures refused == 0
      ensures gr.Valid() && gr.lastLen == 0 && gr.scan == Run(Lines, START, FileBytes(disk, start, fileSize))
      ensures gr.res == Grep.Matches(Split(Lines, FileBytes(disk, start, fileSize)), gr.target)
    {
      hide WellFormed, Filled, Holds, FileBytes, Run, ToSect;
      refused := ReadThrough(Grepping(gr), start, fileSize);
      NothingPending(Lines, FileBytes(disk, start, fileSize), Grep.LAST_SIZE);
    }
  }
}
