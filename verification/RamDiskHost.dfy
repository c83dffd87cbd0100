/** The RAM disk as the host sees it: its requests, in the order it made them, and the addresses it
    gave; no block number of the disk and no position in the ring. */
module RamDiskHost {
  import opened Base
  import opened Model
  import opened RamDisk
  import opened RamDiskSafety

  // ---------------------------------------------------------------- the host's view

  /** What the host has asked for in a run. */
  function RequestsOf(steps: seq<Step>): seq<Request> {
    if steps == [] then []
    else
      var n := |steps| - 1;
      RequestsOf(steps[..n]) + AskedBy(steps[n])
  }

  function AskedBy(st: Step): seq<Request> {
    match st
    case StartRead(_, lba, buf) => [Request(Rd, lba, |buf|, [])]
    case StartWrite(_, lba, buf, payload) => [Request(Wr, lba, |buf|, payload)]
    case _ => []
  }

  /** The byte address of a block is computed in 32 bits, so addresses 0x100000 apart are one. */
  function Address(q: Request, i: nat): nat {
    (q.lba + i) % 0x10_0000
  }

  /** The first i blocks of a request, carried out. */
  function Store(d: Disk, q: Request, i: nat): Disk {
    if i == 0 then d
    else
      var e := Store(d, q, i - 1);
      if q.typ == Wr && i <= |q.payload| && Address(q, i - 1) < 16384 then e[Address(q, i - 1) := q.payload[i - 1]] else e
  }

  /** Reference: the requests carried out one after the other, each in one piece. */
  function HostDisk(d0: Disk, reqs: seq<Request>): Disk {
    if reqs == [] then d0
    else
      var n := |reqs| - 1;
      Store(HostDisk(d0, reqs[..n]), reqs[n], reqs[n].nblock)
  }

  /** Block j of request v is written to address a. */
  predicate Hits(reqs: seq<Request>, v: nat, j: nat, a: nat) {
    v < |reqs| && reqs[v].typ == Wr && j < reqs[v].nblock && (reqs[v].lba + j) % 0x10_0000 == a
  }

  /** No block is written there later. */
  ghost predicate LastHit(reqs: seq<Request>, v: nat, j: nat, a: nat) {
    Hits(reqs, v, j, a) && forall w: nat, l: nat :: Hits(reqs, w, l, a) ==> w < v || (w == v && l <= j)
  }

  ghost predicate Untouched(reqs: seq<Request>, a: nat) {
    forall v: nat, j: nat :: !Hits(reqs, v, j, a)
  }

  /** d is the block last written to address a, or what was there at the start. */
  ghost predicate LastWritten(d0: Disk, reqs: seq<Request>, a: nat, d: Block)
    requires a < 16384
  {
    || (exists v: nat, j: nat :: LastHit(reqs, v, j, a) && j < |reqs[v].payload| && d == reqs[v].payload[j])
    || (Untouched(reqs, a) && d == d0[a])
  }

  ghost predicate Payloads(reqs: seq<Request>) {
    forall v :: 0 <= v < |reqs| && reqs[v].typ == Wr ==> |reqs[v].payload| == reqs[v].nblock
  }

  // ---------------------------------------------------------------- the reference disk

  lemma {:induction false} StoreReads(d: Disk, q: Request, i: nat)
    requires q.typ == Rd
    ensures Store(d, q, i) == d
    decreases i
  {
    if i == 0 {
    } else {
      StoreReads(d, q, i - 1);
    }
  }

  /** A write leaves its last block for an address there, and other addresses alone. */
  lemma {:induction false} StoreAt(d: Disk, q: Request, i: nat, a: nat) returns (j: Option<nat>)
    requires a < 16384 && q.typ == Wr && i <= |q.payload|
    ensures j.None? ==> Store(d, q, i)[a] == d[a] && forall l :: 0 <= l < i ==> Address(q, l) != a
    ensures j.Some? ==> j.value < i && Address(q, j.value) == a && Store(d, q, i)[a] == q.payload[j.value]
                        && forall l :: j.value < l < i ==> Address(q, l) != a
    decreases i
  {
    hide Address;
    if i == 0 {
      j := None;
    } else {
      j := StoreAt(d, q, i - 1, a);
      if Address(q, i - 1) == a {
        j := Some(i - 1);
      }
    }
  }

  /** Reference reading of HostDisk: an address holds the block last written there by the host. */
  lemma {:induction false} HostDiskIsLastWrite(d0: Disk, reqs: seq<Request>, a: nat)
    requires a < 16384 && Payloads(reqs)
    ensures LastWritten(d0, reqs, a, HostDisk(d0, reqs)[a])
    decreases |reqs|
  {
    hide Address, LastWritten, Store;
    if reqs == [] {
      UntouchedYet(d0, a);
    } else {
      var n := |reqs| - 1;
      var front, q := reqs[..n], reqs[n];
      HostDiskIsLastWrite(d0, front, a);
      if q.typ == Rd {
        StoreReads(HostDisk(d0, front), q, q.nblock);
        NoHitAdded(d0, reqs, a, HostDisk(d0, front)[a]);
      } else {
        var j := StoreAt(HostDisk(d0, front), q, q.nblock, a);
        if j.Some? {
          HitAdded(d0, reqs, a, j.value);
        } else {
          NoHitAdded(d0, reqs, a, HostDisk(d0, front)[a]);
        }
      }
    }
  }

  lemma UntouchedYet(d0: Disk, a: nat)
    requires a < 16384
    ensures LastWritten(d0, [], a, d0[a])
  {
    assert Untouched([], a);
  }

  lemma NoHitAdded(d0: Disk, reqs: seq<Request>, a: nat, d: Block)
    requires a < 16384 && reqs != [] && LastWritten(d0, reqs[..|reqs| - 1], a, d)
    requires var q := reqs[|reqs| - 1]; q.typ == Rd || forall j :: 0 <= j < q.nblock ==> Address(q, j) != a
    ensures LastWritten(d0, reqs, a, d)
  {
    var n := |reqs| - 1;
    var front := reqs[..n];
    forall v: nat, j: nat | Hits(reqs, v, j, a)
      ensures Hits(front, v, j, a)
    {
      assert Address(reqs[v], j) == a;
    }
    if v: nat, j: nat :| LastHit(front, v, j, a) && j < |front[v].payload| && d == front[v].payload[j] {
      assert LastHit(reqs, v, j, a);
    }
  }

  lemma HitAdded(d0: Disk, reqs: seq<Request>, a: nat, j: nat)
    requires a < 16384 && reqs != []
    requires var q := reqs[|reqs| - 1];
             && q.typ == Wr && j < q.nblock && j < |q.payload| && Address(q, j) == a
             && forall l :: j < l < q.nblock ==> Address(q, l) != a
    ensures LastWritten(d0, reqs, a, reqs[|reqs| - 1].payload[j])
  {
    var n := |reqs| - 1;
    forall w: nat, l: nat | Hits(reqs, w, l, a)
      ensures w < n || (w == n && l <= j)
    {
      assert Address(reqs[w], l) == a;
    }
    assert LastHit(reqs, n, j, a);
  }

  // ---------------------------------------------------------------- positions

  /** How many blocks the first u requests have. */
  function Offset(reqs: seq<Request>, u: nat): nat
    requires u <= |reqs|
  {
    if u == 0 then 0 else Offset(reqs, u - 1) + reqs[u - 1].nblock
  }

  lemma {:induction false} OffsetKept(reqs: seq<Request>, q: Request, u: nat)
    requires u <= |reqs|
    ensures Offset(reqs + [q], u) == Offset(reqs, u)
    decreases u
  {
    if u == 0 {
    } else {
      OffsetKept(reqs, q, u - 1);
    }
  }

  lemma {:induction false} OffsetGrows(reqs: seq<Request>, u: nat, v: nat)
    requires u < v <= |reqs|
    ensures Offset(reqs, u) + reqs[u].nblock <= Offset(reqs, v)
    decreases v
  {
    if u == v - 1 {
    } else {
      OffsetGrows(reqs, u, v - 1);
    }
  }

  lemma OneKey(reqs: seq<Request>, u: nat, i: nat, v: nat, j: nat)
    requires u < |reqs| && v < |reqs| && i < reqs[u].nblock && j < reqs[v].nblock
    requires Offset(reqs, u) + i == Offset(reqs, v) + j
    ensures u == v && i == j
  {
    if u < v {
      OffsetGrows(reqs, u, v);
    } else if v < u {
      OffsetGrows(reqs, v, u);
    }
  }

  // ---------------------------------------------------------------- the invariant

  /** Position k of the history is block x.i of request x.u, and no position is left out. */
  ghost predicate RecordOk(reqs: seq<Request>, x: Issued, k: nat) {
    && x.u < |reqs| && x.i < reqs[x.u].nblock && k == Offset(reqs, x.u) + x.i
    && x.typ == reqs[x.u].typ && x.block == Address(reqs[x.u], x.i) < 16384
    && (x.typ == Wr ==> x.i < |reqs[x.u].payload| && x.data == reqs[x.u].payload[x.i])
  }

  ghost predicate RecordsOk(reqs: seq<Request>, hist: seq<Issued>) {
    forall k :: 0 <= k < |hist| ==> RecordOk(reqs, hist[k], k)
  }

  /** A live command is the request its note says. */
  ghost predicate NoteOk(s: State, c: nat)
    requires c in s.note
  {
    var n := s.note[c];
    && c in s.cmds && n.u < |s.reqs|
    && s.reqs[n.u] == Request(s.cmds[c].typ, s.cmds[c].lba, s.cmds[c].nblock, n.payload)
    && forall i :: 0 <= i < |n.at| ==> n.at[i] < |s.hist| && s.hist[n.at[i]].u == n.u && s.hist[n.at[i]].i == i
  }

  ghost predicate NotesOk(s: State) {
    forall c :: c in s.note ==> NoteOk(s, c)
  }

  /** Requests are issued one after the other, each block by block. */
  ghost predicate IssuedInOrder(s: State) {
    var n := |s.reqs|;
    if s.main == Idle || s.main.Sending? then |s.hist| == Offset(s.reqs, n)
    else
      && n > 0 && s.main.cmd in s.note && s.note[s.main.cmd].u == n - 1
      && |s.hist| == Offset(s.reqs, n - 1) + (if s.main.Receiving? then 0 else s.main.i)
  }

  ghost predicate Delivered(sent: set<Sent>, u: nat, i: nat) {
    exists x :: x in sent && x.u == u && x.i == i
  }

  ghost predicate SentKeys(sent: set<Sent>, hist: seq<Issued>) {
    forall x :: x in sent ==> x.at < |hist| && hist[x.at].u == x.u && hist[x.at].i == x.i
  }

  /** Some command still carries request u. */
  ghost predicate Pends(s: State, u: nat) {
    exists c :: c in s.note && s.note[c].u == u
  }

  /** Block i of request u has been copied and, for a read, handed to the host. */
  ghost predicate Made(s: State, u: nat, i: nat)
    requires u < |s.reqs|
  {
    Offset(s.reqs, u) + i < CopiedCount(s) && (s.reqs[u].typ == Rd ==> Delivered(s.sent, u, i))
  }

  ghost predicate AllMade(s: State) {
    forall u: nat, i: nat :: u < |s.reqs| && i < s.reqs[u].nblock && !Pends(s, u) ==> Made(s, u, i)
  }

  /** While a read is being sent, its first blocks have been. */
  ghost predicate SentSoFar(s: State) {
    s.main.Sending? ==> s.main.cmd in s.note && forall k: nat :: k < s.main.i ==> Delivered(s.sent, s.note[s.main.cmd].u, k)
  }

  ghost predicate HostInv(s: State) {
    && RecordsOk(s.reqs, s.hist) && Payloads(s.reqs) && NotesOk(s) && IssuedInOrder(s) && SentKeys(s.sent, s.hist)
    && AllMade(s) && SentSoFar(s)
  }

  // ---------------------------------------------------------------- steps the host does not see

  ghost predicate SameHost(s: State, t: State) {
    && t.note == s.note && t.hist == s.hist && t.reqs == s.reqs && t.sent == s.sent && CopiedCount(s) <= CopiedCount(t)
    && forall c :: c in s.cmds ==> c in t.cmds && t.cmds[c].(done := 0) == s.cmds[c].(done := 0)
  }

  lemma SameHostKeeps(s: State, t: State)
    requires HostInv(s) && SameHost(s, t) && IssuedInOrder(t) && SentSoFar(t)
    ensures HostInv(t)
  {
    hide RecordsOk, Payloads, IssuedInOrder, SentKeys, Delivered, SentSoFar, CopiedCount, Offset;
    forall c | c in t.note
      ensures NoteOk(t, c)
    {
      assert NoteOk(s, c);
    }
    forall u: nat, i: nat | u < |t.reqs| && i < t.reqs[u].nblock && !Pends(t, u)
      ensures Made(t, u, i)
    {
      StillPends(s, t, u);
      assert Made(s, u, i);
    }
  }

  lemma StillPends(s: State, t: State, u: nat)
    requires forall c :: c in s.note ==> c in t.note && t.note[c].u == s.note[c].u
    ensures Pends(s, u) ==> Pends(t, u)
  {
    if c :| c in s.note && s.note[c].u == u {
      assert t.note[c].u == u;
    }
  }

  predicate Quiet(st: Step) {
    st.Receive? || st.Fill? || st.EndIssue? || st.Copy? || st.Count? || st.Advance?
  }

  lemma QuietSame(s: State, st: Step)
    requires Enabled(s, st) && Quiet(st)
    ensures SameHost(s, Do(s, st))
  {
    hide Pending, RingFull, BlockOf;
  }

  lemma QuietOrder(s: State, st: Step)
    requires Enabled(s, st) && Quiet(st) && MainOk(s) && NotesOk(s) && IssuedInOrder(s) && SentSoFar(s)
    ensures IssuedInOrder(Do(s, st)) && SentSoFar(Do(s, st))
  {
    hide MainOk, NotesOk, IssuedInOrder, SentSoFar;
    if st.EndIssue? {
      EndIssueOrder(s);
    } else if st.Receive? || st.Fill? {
      IssueOrder(s, st);
    } else {
      CopierOrder(s, st);
    }
  }

  lemma EndIssueOrder(s: State)
    requires Enabled(s, EndIssue) && MainOk(s) && NotesOk(s) && IssuedInOrder(s)
    ensures IssuedInOrder(Do(s, EndIssue)) && SentSoFar(Do(s, EndIssue))
  {
    hide Delivered;
    assert NoteOk(s, s.main.cmd);
  }

  lemma IssueOrder(s: State, st: Step)
    requires Enabled(s, st) && (st.Receive? || st.Fill?) && IssuedInOrder(s)
    ensures IssuedInOrder(Do(s, st)) && SentSoFar(Do(s, st))
  {
    hide RingFull, BlockOf, Delivered, Offset;
  }

  lemma CopierOrder(s: State, st: Step)
    requires Enabled(s, st) && (st.Copy? || st.Count? || st.Advance?) && IssuedInOrder(s) && SentSoFar(s)
    ensures IssuedInOrder(Do(s, st)) && SentSoFar(Do(s, st))
  {
    hide Delivered, Offset;
  }

  lemma SendingStarts(s: State)
    requires Enabled(s, Retire) && s.cmds[s.list[0]].typ == Rd && CmdsOk(s) && IssuedInOrder(s)
    ensures var t := Do(s, Retire); SameHost(s, t) && IssuedInOrder(t) && SentSoFar(t)
  {
    hide CmdsOk;
    CmdAt(s, s.list[0]);
  }

  // ---------------------------------------------------------------- a request comes, a block is issued

  lemma BeginHost(s: State, c: nat, r: CmdRec, payload: seq<Block>)
    requires HostInv(s) && Beginning(s, c, r, payload)
    ensures HostInv(Begin(s, c, r, payload))
  {
    hide Unused, Delivered, Address, SentKeys;
    var t := Begin(s, c, r, payload);
    var q := t.reqs[|s.reqs|];
    forall k | 0 <= k < |t.hist|
      ensures RecordOk(t.reqs, t.hist[k], k)
    {
      assert RecordOk(s.reqs, s.hist[k], k);
      OffsetKept(s.reqs, q, s.hist[k].u);
    }
    OffsetKept(s.reqs, q, |s.reqs|);
    BeginNotes(s, c, r, payload);
    BeginMade(s, c, r, payload);
  }

  lemma BeginNotes(s: State, c: nat, r: CmdRec, payload: seq<Block>)
    requires NotesOk(s) && Beginning(s, c, r, payload)
    ensures NotesOk(Begin(s, c, r, payload))
  {
    hide Unused;
    var t := Begin(s, c, r, payload);
    forall d | d in t.note
      ensures NoteOk(t, d)
    {
      assert d != c ==> NoteOk(s, d);
    }
  }

  lemma BeginMade(s: State, c: nat, r: CmdRec, payload: seq<Block>)
    requires NotesOk(s) && AllMade(s) && Beginning(s, c, r, payload)
    ensures AllMade(Begin(s, c, r, payload))
  {
    hide Unused, Delivered, Offset;
    var t := Begin(s, c, r, payload);
    forall u: nat, i: nat | u < |t.reqs| && i < t.reqs[u].nblock && !Pends(t, u)
      ensures Made(t, u, i)
    {
      assert t.note[c].u == |s.reqs|;
      assert c in s.note ==> NoteOk(s, c);
      StillPends(s, t, u);
      assert Made(s, u, i);
      OffsetKept(s.reqs, t.reqs[|s.reqs|], u);
    }
  }

  lemma PublishHost(d0: Disk, s: State)
    requires Inv(d0, s) && HostInv(s) && Enabled(s, Publish)
    ensures HostInv(DoPublish(s))
  {
    hide Inv, DoPublish, Delivered, Payloads, CopiedCount, CountedCount, Uncounted, Offset, AllMade;
    PublishStep(d0, s);
    PublishList(s);
    PublishReqs(s);
    var t, c := DoPublish(s), s.main.cmd;
    assert NoteOk(s, c);
    forall k | 0 <= k < |t.hist|
      ensures RecordOk(t.reqs, t.hist[k], k)
    {
      assert k < |s.hist| ==> RecordOk(s.reqs, s.hist[k], k);
    }
    forall d | d in t.note
      ensures NoteOk(t, d)
    {
      assert NoteOk(s, d);
    }
    PublishMade(s, t);
  }

  lemma PublishReqs(s: State)
    requires Enabled(s, Publish)
    ensures DoPublish(s).reqs == s.reqs
  {
  }

  lemma PublishMade(s: State, t: State)
    requires AllMade(s) && t.reqs == s.reqs && t.sent == s.sent && CopiedCount(s) <= CopiedCount(t)
    requires forall c :: c in s.note ==> c in t.note && t.note[c].u == s.note[c].u
    ensures AllMade(t)
  {
    hide Delivered, Offset, CopiedCount;
    forall u: nat, i: nat | u < |t.reqs| && i < t.reqs[u].nblock && !Pends(t, u)
      ensures Made(t, u, i)
    {
      StillPends(s, t, u);
      assert Made(s, u, i);
    }
  }

  // ---------------------------------------------------------------- a block is sent, a command freed

  lemma SendHost(s: State)
    requires HostInv(s) && Enabled(s, Send)
    ensures HostInv(Do(s, Send))
  {
    hide RecordsOk, Payloads, Offset;
    var t, c, i := Do(s, Send), s.main.cmd, s.main.i;
    var x := Sent(s.note[c].at[i], s.mem[s.cmds[c].buf[i]], s.note[c].u, i);
    assert NoteOk(s, c);
    assert x in t.sent;
    DeliveredMore(s.sent, t.sent);
    forall d | d in t.note
      ensures NoteOk(t, d)
    {
      assert NoteOk(s, d);
    }
    forall u: nat, j: nat | u < |t.reqs| && j < t.reqs[u].nblock && !Pends(t, u)
      ensures Made(t, u, j)
    {
      StillPends(s, t, u);
      assert Made(s, u, j);
    }
  }

  lemma DeliveredMore(sent: set<Sent>, more: set<Sent>)
    requires sent <= more
    ensures forall u: nat, i: nat :: Delivered(sent, u, i) ==> Delivered(more, u, i)
  {
    forall u: nat, i: nat | Delivered(sent, u, i)
      ensures Delivered(more, u, i)
    {
      var x :| x in sent && x.u == u && x.i == i;
      assert x in more;
    }
  }

  /** What is freed has been copied block by block, and a read has been handed to the host. */
  lemma FreedIsMade(s: State, i: nat)
    requires CmdsOk(s) && MainOk(s) && Freeing(s) && HostInv(s) && i < s.cmds[s.list[0]].nblock
    requires s.cmds[s.list[0]].typ == Rd ==> s.main.Sending? && s.main.i >= s.cmds[s.list[0]].nblock
    ensures s.list[0] in s.note && s.note[s.list[0]].u < |s.reqs| && Made(s, s.note[s.list[0]].u, i)
  {
    hide CmdsOk, Uncounted, Delivered, AllMade, Payloads, Offset, Owing;
    var c := s.list[0];
    CmdAt(s, c);
    IssuedAt(s, c, i);
    assert NoteOk(s, c);
    var at := s.note[c].at[i];
    assert RecordOk(s.reqs, s.hist[at], at);
    if at >= CountedCount(s) {
      NoEntryOfFreed(s, at - CountedCount(s));
      assert false;
    }
  }

  lemma FreeHost(s: State)
    requires CmdsOk(s) && MainOk(s) && Freeing(s) && HostInv(s)
    requires s.cmds[s.list[0]].typ == Rd ==> s.main.Sending? && s.main.i >= s.cmds[s.list[0]].nblock
    ensures HostInv(Free(s))
  {
    hide CmdsOk, MainOk, RecordsOk, Payloads, Uncounted, CopiedCount, Offset, Delivered, SentKeys, Made, Pends;
    var t, c := Free(s), s.list[0];
    FreeView(s);
    FreeOrder(s);
    forall d | d in t.note
      ensures NoteOk(t, d)
    {
      assert NoteOk(s, d);
    }
    forall u: nat, i: nat | u < |t.reqs| && i < t.reqs[u].nblock && !Pends(t, u)
      ensures Made(t, u, i)
    {
      FreeMade(s, u, i);
    }
  }

  lemma FreeOrder(s: State)
    requires MainOk(s) && Freeing(s) && IssuedInOrder(s)
    ensures IssuedInOrder(Free(s)) && SentSoFar(Free(s))
  {
    hide Offset;
  }

  lemma FreeMade(s: State, u: nat, i: nat)
    requires CmdsOk(s) && MainOk(s) && Freeing(s) && HostInv(s)
    requires s.cmds[s.list[0]].typ == Rd ==> s.main.Sending? && s.main.i >= s.cmds[s.list[0]].nblock
    requires u < |s.reqs| && i < s.reqs[u].nblock && !Pends(Free(s), u)
    ensures Made(Free(s), u, i)
  {
    hide CmdsOk, MainOk, RecordsOk, Payloads, Uncounted, CountedCount, Offset, Delivered, SentKeys, IssuedInOrder, SentSoFar;
    FreeView(s);
    if Pends(s, u) {
      var d :| d in s.note && s.note[d].u == u;
      assert d in Free(s).note || d == s.list[0];
      assert NoteOk(s, d);
      FreedIsMade(s, i);
    } else {
      assert Made(s, u, i);
    }
  }

  // ---------------------------------------------------------------- every run

  lemma StepKeepsHost(d0: Disk, s: State, st: Step)
    requires Inv(d0, s) && HostInv(s) && Enabled(s, st)
    ensures HostInv(Do(s, st))
  {
    hide HostInv, DoReceive, DoFill, DoPublish, DoCopy, Begin, Free;
    InvCmds(d0, s);
    hide Inv, CmdsOk, EntriesOk, AllDataOk, DiskOk, SentOk, Disjoint, RingOk;
    match st
    case StartRead(c, lba, buf) => BeginHost(s, c, CmdRec(Rd, lba, |buf|, 0, buf), []);
    case StartWrite(c, lba, buf, payload) => BeginHost(s, c, CmdRec(Wr, lba, |buf|, 0, buf), payload);
    case Publish => PublishHost(d0, s);
    case Retire =>
      if s.cmds[s.list[0]].typ == Rd {
        RetireHost(s);
      } else {
        FreeHost(s);
      }
    case Send => SendHost(s);
    case EndSend =>
      SendingFrees(d0, s);
      FreeHost(s);
    case _ => QuietHost(s, st);
  }

  lemma RetireHost(s: State)
    requires Enabled(s, Retire) && s.cmds[s.list[0]].typ == Rd && CmdsOk(s) && HostInv(s)
    ensures HostInv(Do(s, Retire))
  {
    hide CmdsOk, SentSoFar, SameHost;
    SendingStarts(s);
    SameHostKeeps(s, Do(s, Retire));
  }

  lemma QuietHost(s: State, st: Step)
    requires Enabled(s, st) && Quiet(st) && MainOk(s) && HostInv(s)
    ensures HostInv(Do(s, st))
  {
    hide Enabled, Do, MainOk, Quiet, SameHost, IssuedInOrder, SentSoFar, NotesOk, RecordsOk, AllMade, SentKeys;
    QuietSame(s, st);
    QuietOrder(s, st);
    SameHostKeeps(s, Do(s, st));
  }

  lemma StartHost(d0: Disk, s: State)
    requires IsStart(d0, s)
    ensures HostInv(s)
  {
  }

  /** A step records what the host asks for, if anything. */
  lemma AskedIsRecorded(s: State, st: Step)
    requires Enabled(s, st)
    ensures Do(s, st).reqs == s.reqs + AskedBy(st)
  {
    hide Pending, Unused, RingFull, BlockOf;
  }

  lemma {:induction false} EveryHostRun(d0: Disk, states: seq<State>, steps: seq<Step>, k: nat)
    requires IsRun(d0, states, steps) && k < |states|
    ensures Inv(d0, states[k]) && HostInv(states[k]) && states[k].reqs == RequestsOf(steps[..k])
    decreases k
  {
    hide Inv, HostInv, Enabled, Do, IsStart, AskedBy;
    if k == 0 {
      StartKeeps(d0, states[0]);
      StartHost(d0, states[0]);
      StartAsked(d0, states[0]);
    } else {
      EveryHostRun(d0, states, steps, k - 1);
      StepKeeps(d0, states[k - 1], steps[k - 1]);
      StepKeepsHost(d0, states[k - 1], steps[k - 1]);
      AskedIsRecorded(states[k - 1], steps[k - 1]);
      assert steps[..k][..k - 1] == steps[..k - 1];
    }
  }

  lemma StartAsked(d0: Disk, s: State)
    requires IsStart(d0, s)
    ensures s.reqs == []
  {
  }

  // ---------------------------------------------------------------- what the host reads

  /** The disk after the copies issued up to block i of request u is what the host has written so far. */
  lemma {:induction false} ReplayIsHost(d0: Disk, hist: seq<Issued>, reqs: seq<Request>, u: nat, i: nat)
    requires RecordsOk(reqs, hist) && u < |reqs| && i <= reqs[u].nblock && Offset(reqs, u) + i <= |hist|
    ensures Replay(d0, hist[..Offset(reqs, u) + i]) == Store(HostDisk(d0, reqs[..u]), reqs[u], i)
    decreases u, i
  {
    hide RecordsOk, Address, RecordOk;
    if i > 0 {
      var k := Offset(reqs, u) + i - 1;
      ReplayIsHost(d0, hist, reqs, u, i - 1);
      ReplayMore(d0, hist, k);
      RecordAt(hist, reqs, u, i - 1);
    } else if u > 0 {
      ReplayIsHost(d0, hist, reqs, u - 1, reqs[u - 1].nblock);
      assert reqs[..u][..u - 1] == reqs[..u - 1];
    }
  }

  lemma RecordAt(hist: seq<Issued>, reqs: seq<Request>, u: nat, i: nat)
    requires RecordsOk(reqs, hist) && u < |reqs| && i < reqs[u].nblock && Offset(reqs, u) + i < |hist|
    ensures var x := hist[Offset(reqs, u) + i];
            && x.typ == reqs[u].typ && x.block == Address(reqs[u], i) < 16384
            && (x.typ == Wr ==> i < |reqs[u].payload| && x.data == reqs[u].payload[i])
  {
    hide Address;
    var k := Offset(reqs, u) + i;
    assert RecordOk(reqs, hist[k], k);
    OneKey(reqs, u, i, hist[k].u, hist[k].i);
  }

  /** What the host receives for block i of a read of lba is what its earlier requests have left at
      address lba + i, whatever the two threads do when. */
  lemma HostReads(d0: Disk, states: seq<State>, steps: seq<Step>, k: nat, x: Sent)
    requires IsRun(d0, states, steps) && k < |states| && x in states[k].sent
    ensures var reqs := RequestsOf(steps[..k]);
            && x.u < |reqs| && reqs[x.u].typ == Rd && x.i < reqs[x.u].nblock
            && var a := (reqs[x.u].lba + x.i) % 0x10_0000;
            && a < 16384 && x.got == HostDisk(d0, reqs[..x.u])[a] && LastWritten(d0, reqs[..x.u], a, x.got)
  {
    hide Inv, HostInv, IsRun, LastWritten;
    EveryHostRun(d0, states, steps, k);
    ReadsSeeEarlierWrites(d0, states, steps, k, x);
    SentIsOfHost(d0, states[k], x);
    var reqs := states[k].reqs;
    HostDiskIsLastWrite(d0, reqs[..x.u], Address(reqs[x.u], x.i));
  }

  lemma SentIsOfHost(d0: Disk, s: State, x: Sent)
    requires HostInv(s) && x in s.sent && x.at < |s.hist| && s.hist[x.at].typ == Rd && s.hist[x.at].block < 16384
    requires x.got == Replay(d0, s.hist[..x.at])[s.hist[x.at].block]
    ensures x.u < |s.reqs| && s.reqs[x.u].typ == Rd && x.i < s.reqs[x.u].nblock && Address(s.reqs[x.u], x.i) < 16384
    ensures x.got == HostDisk(d0, s.reqs[..x.u])[Address(s.reqs[x.u], x.i)] && Payloads(s.reqs[..x.u])
  {
    hide Address, NotesOk, IssuedInOrder, AllMade, SentSoFar;
    assert RecordOk(s.reqs, s.hist[x.at], x.at);
    ReplayIsHost(d0, s.hist, s.reqs, x.u, x.i);
    StoreReads(HostDisk(d0, s.reqs[..x.u]), s.reqs[x.u], x.i);
  }

  /** Every request stays below 0x100000. */
  ghost predicate InRange(reqs: seq<Request>) {
    forall v :: 0 <= v < |reqs| ==> reqs[v].lba + reqs[v].nblock <= 0x10_0000
  }

  /** Then the address hit is the very one given by the host, and a block read is the one last written
      to the same LBA. */
  lemma InRangeExact(reqs: seq<Request>, v: nat, j: nat, a: nat)
    requires InRange(reqs) && a < 0x10_0000
    ensures Hits(reqs, v, j, a) <==> v < |reqs| && reqs[v].typ == Wr && j < reqs[v].nblock && reqs[v].lba + j == a
  {
  }

  /** Otherwise it need not be: a write to an LBA 0x100000 further on overwrites the block. */
  lemma Aliased(d0: Disk, a: nat, d: Block, e: Block)
    requires a < 16384
    ensures HostDisk(d0, [Request(Wr, a, 1, [d]), Request(Wr, a + 0x10_0000, 1, [e])])[a] == e
  {
    var p, q := Request(Wr, a, 1, [d]), Request(Wr, a + 0x10_0000, 1, [e]);
    assert [p, q][..1] == [p] && [p][..0] == [];
    assert Address(q, 0) == a;
    assert Store(HostDisk(d0, [p]), q, 0) == HostDisk(d0, [p]);
  }

  // ---------------------------------------------------------------- nothing is left out

  /** When a read is freed every block of it has been handed to the host: block i holds what the earlier
      requests have left at its address. The read is a request of the host, with its address and length. */
  lemma FreedReadIsDelivered(d0: Disk, states: seq<State>, steps: seq<Step>, k: nat, c: nat, i: nat) returns (x: Sent)
    requires IsRun(d0, states, steps) && k < |steps| && c in states[k].cmds && c !in states[k + 1].cmds
    requires states[k].cmds[c].typ == Rd && i < states[k].cmds[c].nblock
    ensures x in states[k + 1].sent && x.i == i
    ensures var r, reqs := states[k].cmds[c], RequestsOf(steps[..k]);
            && x.u < |reqs| && reqs[x.u].typ == Rd && reqs[x.u].lba == r.lba && reqs[x.u].nblock == r.nblock
            && var a := (r.lba + i) % 0x10_0000;
            && a < 16384 && LastWritten(d0, reqs[..x.u], a, x.got)
  {
    hide Inv, HostInv, IsRun, LastWritten, Enabled, Do;
    RunStep(d0, states, steps, k);
    EveryHostRun(d0, states, steps, k);
    x := FreedHasSent(d0, states[k], steps[k], c, i);
    HostReads(d0, states, steps, k, x);
    SentStays(states[k], steps[k]);
  }

  lemma RunStep(d0: Disk, states: seq<State>, steps: seq<Step>, k: nat)
    requires IsRun(d0, states, steps) && k < |steps|
    ensures |states| == |steps| + 1 && Enabled(states[k], steps[k]) && states[k + 1] == Do(states[k], steps[k])
  {
    hide Enabled, Do, IsStart;
  }

  lemma SentStays(s: State, st: Step)
    requires Enabled(s, st)
    ensures s.sent <= Do(s, st).sent
  {
    hide Pending, Unused, RingFull, BlockOf;
  }

  lemma FreedHasSent(d0: Disk, s: State, st: Step, c: nat, i: nat) returns (x: Sent)
    requires Inv(d0, s) && HostInv(s) && Enabled(s, st) && c in s.cmds && c !in Do(s, st).cmds
    requires s.cmds[c].typ == Rd && i < s.cmds[c].nblock
    ensures x in s.sent && x.i == i && x.u < |s.reqs|
    ensures s.reqs[x.u].lba == s.cmds[c].lba && s.reqs[x.u].nblock == s.cmds[c].nblock
  {
    hide CmdsOk, EntriesOk, AllDataOk, DiskOk, SentOk, Disjoint, RingOk, RecordsOk, AllMade, IssuedInOrder;
    FreedBySending(s, st, c);
    assert NoteOk(s, c);
    assert Delivered(s.sent, s.note[c].u, i);
    x :| x in s.sent && x.u == s.note[c].u && x.i == i;
  }

  lemma FreedBySending(s: State, st: Step, c: nat)
    requires Enabled(s, st) && MainOk(s) && c in s.cmds && c !in Do(s, st).cmds && s.cmds[c].typ == Rd
    ensures s.main.Sending? && s.main.cmd == c && s.main.i >= s.cmds[c].nblock
  {
    hide Pending, Unused, RingFull, BlockOf;
  }

  /** A request that no live command carries any more has been carried out, every block of it: copied,
      and for a read handed to the host with the block last written before it. */
  lemma GoneIsDone(d0: Disk, states: seq<State>, steps: seq<Step>, k: nat, u: nat, i: nat) returns (x: Option<Sent>)
    requires IsRun(d0, states, steps) && k < |states|
    requires u < |RequestsOf(steps[..k])| && i < RequestsOf(steps[..k])[u].nblock
    requires forall c :: c in states[k].note ==> states[k].note[c].u != u
    ensures Offset(RequestsOf(steps[..k]), u) + i < CopiedCount(states[k])
    ensures RequestsOf(steps[..k])[u].typ == Rd ==>
              && x.Some? && x.value in states[k].sent && x.value.u == u && x.value.i == i
              && var reqs := RequestsOf(steps[..k]); var a := (reqs[u].lba + i) % 0x10_0000;
              && a < 16384 && LastWritten(d0, reqs[..u], a, x.value.got)
  {
    hide Inv, IsRun, LastWritten, RecordsOk, NotesOk, IssuedInOrder, SentKeys, SentSoFar, CopiedCount, Offset, RequestsOf;
    EveryHostRun(d0, states, steps, k);
    var s := states[k];
    assert !Pends(s, u);
    assert Made(s, u, i);
    if s.reqs[u].typ == Rd {
      var y :| y in s.sent && y.u == u && y.i == i;
      HostReads(d0, states, steps, k, y);
      x := Some(y);
    } else {
      x := None;
    }
  }

  /** With all commands freed the disk is what the host has written. */
  lemma QuietDisk(d0: Disk, states: seq<State>, steps: seq<Step>, k: nat)
    requires IsRun(d0, states, steps) && k < |states| && states[k].note == map[] && states[k].main == Idle
    ensures states[k].disk == HostDisk(d0, RequestsOf(steps[..k]))
  {
    hide Inv, IsRun, HostInv, RequestsOf;
    EveryHostRun(d0, states, steps, k);
    InvCmds(d0, states[k]);
    DoneDisk(d0, states[k]);
  }

  lemma DoneDisk(d0: Disk, s: State)
    requires DiskOk(d0, s) && HostInv(s) && s.note == map[] && s.main == Idle
    ensures s.disk == HostDisk(d0, s.reqs)
  {
    hide NotesOk, SentSoFar, Address, Store, SentKeys, Delivered, CopiedCount;
    var n := |s.reqs|;
    if |s.hist| > 0 {
      assert RecordOk(s.reqs, s.hist[|s.hist| - 1], |s.hist| - 1);
      var x := s.hist[|s.hist| - 1];
      assert !Pends(s, x.u);
      assert Made(s, x.u, x.i);
    }
    assert CopiedCount(s) == |s.hist| && s.hist[..|s.hist|] == s.hist;
    if n > 0 {
      ReplayIsHost(d0, s.hist, s.reqs, n - 1, s.reqs[n - 1].nblock);
      assert s.reqs[..n] == s.reqs;
    }
  }

  /** The main thread exits exactly where the address leaves the disk, and every block issued is on it. */
  lemma ExitsOutside(d0: Disk, states: seq<State>, steps: seq<Step>, k: nat)
    requires IsRun(d0, states, steps) && k < |steps| && steps[k] == Fill
    ensures var s, t := states[k], states[k + 1]; var reqs := RequestsOf(steps[..k]);
            && reqs != []
            && (t.main.Exited? <==> (reqs[|reqs| - 1].lba + s.main.i) % 0x10_0000 >= 16384)
  {
    hide Inv, IsRun, RequestsOf, Enabled, Do;
    RunStep(d0, states, steps, k);
    EveryHostRun(d0, states, steps, k);
    FillExits(states[k]);
  }

  lemma FillExits(s: State)
    requires HostInv(s) && Enabled(s, Fill)
    ensures s.reqs != [] && (Do(s, Fill).main.Exited? <==> (s.reqs[|s.reqs| - 1].lba + s.main.i) % 0x10_0000 >= 16384)
  {
    hide RecordsOk, AllMade, SentSoFar, Offset;
    assert NoteOk(s, s.main.cmd);
  }
}
