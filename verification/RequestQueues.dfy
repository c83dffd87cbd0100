/** The request pool and the per-way FIFOs of fil.c. Every outstanding request is charged to a
    key, a DMA buffer together with "erase" or "not erase"; there are exactly as many keys as
    pooled requests, which is why new_req never runs dry. */
module RequestQueues {
  import opened Base
  import opened NandAddress
  import opened Model

  type ReqQueues = s: seq<seq<Req>> | |s| == 64 witness seq(64, _ => [])
  type ReqPlace = s: seq<Option<WayId>> | |s| == 16384 witness seq(16384, _ => None)

  /** reqPool and queues are the program's; idAt and keyAt record where each request struct and
      each key is: in the queue of a way, or free. */
  datatype Fil = Fil(reqPool: seq<ReqId>, queues: ReqQueues, idAt: ReqPlace, keyAt: ReqPlace)

  /** The key of a buffer's read or program. */
  function DataKey(b: BufId): (k: nat)
    ensures k < 16384
  {
    2 * b
  }

  /** The key of the erase that precedes a buffer's program. */
  function EraseKey(b: BufId): (k: nat)
    ensures k < 16384
  {
    2 * b + 1
  }

  function KeyOf(op: Op): (k: nat)
    ensures k < 16384
  {
    if op.kind == EraseOp then EraseKey(op.buf) else DataKey(op.buf)
  }

  function Ids(q: seq<Req>): (r: seq<nat>)
    ensures |r| == |q|
  {
    seq(|q|, i requires 0 <= i < |q| => q[i].id)
  }

  function Keys(q: seq<Req>): (r: seq<nat>)
    ensures |r| == |q|
  {
    seq(|q|, i requires 0 <= i < |q| => KeyOf(q[i].op))
  }

  function Ops(q: seq<Req>): (r: seq<Op>)
    ensures |r| == |q|
  {
    seq(|q|, i requires 0 <= i < |q| => q[i].op)
  }

  ghost function FreeKeys(keyAt: ReqPlace): set<nat> {
    set k: nat | 0 <= k < 16384 && keyAt[k] == None
  }

  ghost predicate Valid(f: Fil) {
    && Lists(f.reqPool, f.idAt, None)
    && (forall w: WayId :: Lists(Ids(f.queues[w]), f.idAt, Some(w)))
    && (forall w: WayId :: Lists(Keys(f.queues[w]), f.keyAt, Some(w)))
    && |f.reqPool| == |FreeKeys(f.keyAt)|
  }

  /** Operations whose keys are all free and all different. */
  ghost predicate Fresh(keyAt: ReqPlace, ops: seq<Op>) {
    && (forall i :: 0 <= i < |ops| ==> keyAt[KeyOf(ops[i])] == None)
    && Apart(ops)
  }

  ghost predicate Apart(ops: seq<Op>) {
    forall i, j :: 0 <= i < j < |ops| ==> KeyOf(ops[i]) != KeyOf(ops[j])
  }

  /** fil_add_req: take a request from the head of the pool, append it to its way's list. */
  function Enqueue(f: Fil, op: Op): Fil
    requires f.reqPool != []
  {
    var id := f.reqPool[0];
    var w := WayOf(op.addr);
    Fil(f.reqPool[1..],
        f.queues[w := f.queues[w] + [Req(id, op)]],
        f.idAt[id := Some(w)],
        f.keyAt[KeyOf(op) := Some(w)])
  }

  /** list_del of a way's first request followed by del_req. */
  function Dequeue(f: Fil, w: WayId): Fil
    requires f.queues[w] != []
  {
    var r := f.queues[w][0];
    Fil(f.reqPool + [r.id],
        f.queues[w := f.queues[w][1..]],
        f.idAt[r.id := None],
        f.keyAt[KeyOf(r.op) := None])
  }

  function EnqueueAll(f: Fil, ops: seq<Op>): (g: Fil)
    requires |ops| <= |f.reqPool|
    ensures |g.reqPool| == |f.reqPool| - |ops|
  {
    if ops == [] then f
    else Enqueue(EnqueueAll(f, ops[..|ops| - 1]), ops[|ops| - 1])
  }

  /** The operations of a list that belong to way w, in order. */
  function Pick(ops: seq<Op>, w: WayId): seq<Op> {
    if ops == [] then []
    else
      var n := |ops| - 1;
      Pick(ops[..n], w) + (if WayOf(ops[n].addr) == w then [ops[n]] else [])
  }

  lemma {:induction false} PickAppend(a: seq<Op>, b: seq<Op>, w: WayId)
    ensures Pick(a + b, w) == Pick(a, w) + Pick(b, w)
    decreases b
  {
    if b == [] {
      assert a + b == a;
    } else {
      var n := |b| - 1;
      assert (a + b)[..|a + b| - 1] == a + b[..n];
      PickAppend(a, b[..n], w);
    }
  }

  lemma PushReq(q: seq<Req>, r: Req)
    ensures Ids(q + [r]) == Ids(q) + [r.id]
    ensures Keys(q + [r]) == Keys(q) + [KeyOf(r.op)]
    ensures Ops(q + [r]) == Ops(q) + [r.op]
  {
  }

  lemma PopReq(q: seq<Req>)
    requires q != []
    ensures Ids(q[1..]) == Ids(q)[1..] && Ids(q)[0] == q[0].id
    ensures Keys(q[1..]) == Keys(q)[1..] && Keys(q)[0] == KeyOf(q[0].op)
    ensures Ops(q[1..]) == Ops(q)[1..] && Ops(q)[0] == q[0].op
  {
  }

  /** A key that is free guarantees a pooled request: new_req cannot return NULL. */
  lemma FreeKeyMeansPooled(f: Fil, k: nat)
    requires Valid(f) && k < 16384 && f.keyAt[k] == None
    ensures f.reqPool != []
  {
    assert k in FreeKeys(f.keyAt);
  }

  lemma EnqueueValid(f: Fil, op: Op)
    requires Valid(f) && f.keyAt[KeyOf(op)] == None
    ensures f.reqPool != [] && Valid(Enqueue(f, op))
  {
    FreeKeyMeansPooled(f, KeyOf(op));
    var id, w, k := f.reqPool[0], WayOf(op.addr), KeyOf(op);
    var g := Enqueue(f, op);
    ListsPop(f.reqPool, f.idAt, None, Some(w));
    forall v: WayId
      ensures Lists(Ids(g.queues[v]), g.idAt, Some(v))
      ensures Lists(Keys(g.queues[v]), g.keyAt, Some(v))
    {
      if v == w {
        PushReq(f.queues[w], Req(id, op));
        ListsPush(Ids(f.queues[w]), f.idAt, Some(w), id);
        ListsPush(Keys(f.queues[w]), f.keyAt, Some(w), k);
      } else {
        ListsKeep(Ids(f.queues[v]), f.idAt, Some(v), id, Some(w));
        ListsKeep(Keys(f.queues[v]), f.keyAt, Some(v), k, Some(w));
      }
    }
    assert FreeKeys(g.keyAt) == FreeKeys(f.keyAt) - {k};
  }

  lemma EnqueueOps(f: Fil, op: Op, w: WayId)
    requires f.reqPool != []
    ensures Ops(Enqueue(f, op).queues[w]) == Ops(f.queues[w]) + (if WayOf(op.addr) == w then [op] else [])
  {
    PushReq(f.queues[w], Req(f.reqPool[0], op));
  }

  lemma DequeueValid(f: Fil, w: WayId)
    requires Valid(f) && f.queues[w] != []
    ensures f.keyAt[KeyOf(f.queues[w][0].op)] == Some(w)
    ensures Valid(Dequeue(f, w))
  {
    var r := f.queues[w][0];
    var k := KeyOf(r.op);
    var g := Dequeue(f, w);
    PopReq(f.queues[w]);
    ListsPop(Ids(f.queues[w]), f.idAt, Some(w), None);
    ListsPop(Keys(f.queues[w]), f.keyAt, Some(w), None);
    ListsPush(f.reqPool, f.idAt, None, r.id);
    forall v: WayId
      ensures Lists(Ids(g.queues[v]), g.idAt, Some(v))
      ensures Lists(Keys(g.queues[v]), g.keyAt, Some(v))
    {
      if v != w {
        ListsKeep(Ids(f.queues[v]), f.idAt, Some(v), r.id, None);
        ListsKeep(Keys(f.queues[v]), f.keyAt, Some(v), k, None);
      }
    }
    assert FreeKeys(g.keyAt) == FreeKeys(f.keyAt) + {k};
  }

  /** Each way's list grows by its own operations, in order. */
  lemma {:induction false} EnqueueAllOps(f: Fil, ops: seq<Op>, w: WayId)
    requires |ops| <= |f.reqPool|
    ensures Ops(EnqueueAll(f, ops).queues[w]) == Ops(f.queues[w]) + Pick(ops, w)
    decreases ops
  {
    if ops == [] {
    } else {
      var n := |ops| - 1;
      EnqueueAllOps(f, ops[..n], w);
      EnqueueOps(EnqueueAll(f, ops[..n]), ops[n], w);
    }
  }

  ghost predicate HasKey(ops: seq<Op>, k: nat) {
    exists i :: 0 <= i < |ops| && KeyOf(ops[i]) == k
  }

  /** Exactly the keys of the added operations become occupied. */
  lemma {:induction false} EnqueueAllKeys(f: Fil, ops: seq<Op>, k: nat)
    requires |ops| <= |f.reqPool| && k < 16384
    ensures HasKey(ops, k) ==> EnqueueAll(f, ops).keyAt[k].Some?
    ensures !HasKey(ops, k) ==> EnqueueAll(f, ops).keyAt[k] == f.keyAt[k]
    decreases ops
  {
    if ops == [] {
    } else {
      var n := |ops| - 1;
      EnqueueAllKeys(f, ops[..n], k);
      forall i | 0 <= i < n
        ensures ops[i] == ops[..n][i]
      {
      }
    }
  }

  /** Operations whose keys are all free and all different can be added one after the other:
      the pool suffices, and every request stays accounted for. */
  lemma {:induction false} EnqueueAllValid(f: Fil, ops: seq<Op>)
    requires Valid(f) && Fresh(f.keyAt, ops)
    ensures |ops| <= |f.reqPool|
    ensures Valid(EnqueueAll(f, ops))
    decreases ops
  {
    hide Valid;
    if ops == [] {
    } else {
      var n := |ops| - 1;
      EnqueueAllValid(f, ops[..n]);
      EnqueueAllKeys(f, ops[..n], KeyOf(ops[n]));
      EnqueueValid(EnqueueAll(f, ops[..n]), ops[n]);
    }
  }
}
