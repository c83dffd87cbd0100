/** The circular doubly linked lists of list.h and the DMA buffer pool of cmd_internal.c, pointer by
    pointer. A list is a header followed by its nodes; a detached ring of buffers has no header. */
module DmaPool {

  /** struct list_head; a fresh one is INIT_LIST_HEAD. */
  class ListHead {
    var next: ListHead
    var prev: ListHead

    constructor ()
      ensures next == this && prev == this
    {
      next := this;
      prev := this;
    }
  }

  /** Going round: the nodes in order, each linked to its neighbours, the last to the first. */
  ghost predicate Circle(ns: seq<ListHead>)
    reads ns
  {
    && ns != []
    && (forall i, j :: 0 <= i < j < |ns| ==> ns[i] != ns[j])
    && (forall i :: 0 <= i < |ns| ==> Linked(ns, i))
  }

  ghost predicate Apart(a: seq<ListHead>, b: seq<ListHead>) {
    forall i, j :: 0 <= i < |a| && 0 <= j < |b| ==> a[i] != b[j]
  }

  ghost predicate Linked(ns: seq<ListHead>, i: nat)
    requires i < |ns|
    reads ns
  {
    && ns[i].next == (if i == |ns| - 1 then ns[0] else ns[i + 1])
    && ns[i].prev == (if i == 0 then ns[|ns| - 1] else ns[i - 1])
  }

  // ---------------------------------------------------------------- list.h

  method ListAddTail(node: ListHead, head: ListHead, ghost ns: seq<ListHead>)
    requires Circle([head] + ns) && node !in [head] + ns
    modifies node, head, head.prev
    ensures Circle([head] + ns + [node])
  {
    ghost var was := [head] + ns;
    assert Linked(was, 0) && Linked(was, |ns|);
    var prev := head.prev;
    head.prev := node;
    node.next := head;
    node.prev := prev;
    prev.next := node;
    ghost var all := [head] + ns + [node];
    forall i | 0 <= i < |all|
      ensures Linked(all, i)
    {
      if i < |was| {
        assert all[i] == was[i] && old(Linked(was, i));
      }
    }
  }

  /** list_del of a node that is neither alone nor the header. */
  method ListDel(entry: ListHead, ghost before: seq<ListHead>, ghost after: seq<ListHead>)
    requires Circle(before + [entry] + after) && before != []
    modifies entry.prev, entry.next
    ensures Circle(before + after)
  {
    ghost var all := before + [entry] + after;
    assert all[|before|] == entry && Linked(all, |before|);
    entry.next.prev := entry.prev;
    entry.prev.next := entry.next;
    ghost var rest := before + after;
    assert forall i :: 0 <= i < |rest| ==> rest[i] == all[if i < |before| then i else i + 1];
    forall i | 0 <= i < |rest|
      ensures Linked(rest, i)
    {
      assert old(Linked(all, if i < |before| then i else i + 1));
    }
  }

  method ListEmpty(head: ListHead, ghost ns: seq<ListHead>) returns (empty: bool)
    requires Circle([head] + ns)
    ensures empty <==> ns == []
  {
    assert Linked([head] + ns, 0);
    empty := head.next == head;
  }

  /** Following next from the first buffer of a ring visits the ring in order: the loops of hil.c,
      ftl.c and fil.c over cmd->buf. */
  method Visit(buf: ListHead, nblock: nat, ghost ring: seq<ListHead>) returns (visited: seq<ListHead>)
    requires Circle(ring) && buf == ring[0] && nblock <= |ring|
    ensures visited == ring[..nblock]
  {
    var lp := buf;
    visited := [];
    for i := 0 to nblock
      invariant visited == ring[..i] && lp == ring[if i == |ring| then 0 else i]
    {
      assert Linked(ring, i);
      visited := visited + [lp];
      lp := lp.next;
    }
  }

  method Follow(start: ListHead, n: nat, ghost ring: seq<ListHead>) returns (p: ListHead)
    requires Circle(ring) && start == ring[0] && n < |ring|
    ensures p == ring[n]
  {
    p := start;
    for i := 0 to n
      invariant p == ring[i]
    {
      assert Linked(ring, i);
      p := p.next;
    }
  }

  /** Cuts a circle behind its node n: nodes 1..n are closed up, the header with those behind them. */
  method CutBehind(head: ListHead, first: ListHead, p: ListHead, ghost all: seq<ListHead>, ghost n: nat)
    requires Circle(all) && 1 <= n < |all| - 1 && head == all[0] && first == all[1] && p == all[n]
    modifies all
    ensures Circle(all[1..n + 1]) && Circle(all[..1] + all[n + 1..])
  {
    assert Linked(all, n);
    p.next.prev := head;
    head.next := p.next;
    p.next := first;
    first.prev := p;
    ghost var buf, rest := all[1..n + 1], all[..1] + all[n + 1..];
    assert forall i :: 0 <= i < |buf| ==> buf[i] == all[i + 1];
    assert forall i :: 0 <= i < |rest| ==> rest[i] == all[if i == 0 then 0 else i + n];
    forall i | 0 <= i < |buf|
      ensures Linked(buf, i)
    {
      assert old(Linked(all, i + 1));
    }
    forall i | 0 <= i < |rest|
      ensures Linked(rest, i)
    {
      assert old(Linked(all, if i == 0 then 0 else i + n));
    }
  }

  // ---------------------------------------------------------------- the pool

  class Pool {
    const list: ListHead
    var cnt: int
    ghost var free: seq<ListHead>

    ghost predicate Valid()
      reads this, list, free
    {
      Circle([list] + free) && cnt == |free|
    }

    /** dmabuf_init: the pool lists its nodes in the order of their ids. */
    constructor (n: nat)
      ensures Valid() && |free| == n && fresh(list) && forall x :: x in free ==> fresh(x)
    {
      list := new ListHead();
      cnt := 0;
      free := [];
      new;
      for i := 0 to n
        invariant Circle([list] + free) && |free| == i
        invariant fresh(list) && forall k :: 0 <= k < |free| ==> fresh(free[k])
      {
        var db := new ListHead();
        Append(db);
      }
      cnt := n;
    }

    method Append(db: ListHead)
      requires Circle([list] + free) && db != list && db !in free
      modifies this`free, db, list, if free == [] then list else free[|free| - 1]
      ensures free == old(free) + [db] && Circle([list] + free)
    {
      assert Linked([list] + free, 0);
      assert free != [] ==> list.prev == free[|free| - 1] && free[|free| - 1] in free;
      ListAddTail(db, list, free);
      assert [list] + (free + [db]) == [list] + free + [db];
      free := free + [db];
    }

    /** Detaches the first nblock buffers as a ring of their own, in order, and leaves the others a
        well-formed list; null and no change when there are too few. */
    method Get(nblock: nat) returns (ret: ListHead?)
      requires Valid() && nblock >= 1
      modifies this`cnt, this`free, list, free
      ensures Valid()
      ensures |old(free)| < nblock ==> ret == null && free == old(free)
      ensures |old(free)| >= nblock ==>
        free == old(free)[nblock..] && Circle(old(free)[..nblock]) && ret == old(free)[0]
    {
      if cnt < nblock {
        return null;
      }
      assert Linked([list] + free, 0);
      ret := list.next;
      if cnt == nblock {
        assert free[..nblock] == free;
        CloseAll();
        return;
      }
      CloseFirst(nblock, ret);
    }

    /** The case that takes everything: the nodes are closed up without the header. */
    method CloseAll()
      requires Valid() && free != []
      modifies this`cnt, this`free, list, free
      ensures Valid() && free == [] && Circle(old(free))
    {
      ghost var all, buf := [list] + free, free;
      assert Linked(all, 0);
      list.prev.next := list.next;
      list.next.prev := list.prev;
      cnt := 0;
      list.next := list;
      list.prev := list;
      free := [];
      assert buf == all[1..];
      forall i | 0 <= i < |buf|
        ensures Linked(buf, i)
      {
        assert old(Linked(all, i + 1));
      }
    }

    /** The case that leaves some: cut behind the nblock-th node, close both parts. */
    method CloseFirst(nblock: nat, ret: ListHead)
      requires Valid() && 1 <= nblock < |free| && ret == free[0]
      modifies this`cnt, this`free, list, free
      ensures Valid() && free == old(free)[nblock..] && Circle(old(free)[..nblock])
    {
      hide Linked;
      ghost var all := [list] + free;
      var p := Follow(list, nblock, all);
      CutBehind(list, ret, p, all, nblock);
      cnt := cnt - nblock;
      assert all[1..nblock + 1] == free[..nblock];
      free := free[nblock..];
      assert all[..1] + all[nblock + 1..] == [list] + free;
    }

    /** Returns a ring of buffers to the front of the pool, in order. */
    method Put(buf: ListHead, nblock: nat, ghost ring: seq<ListHead>)
      requires Valid() && Circle(ring) && buf == ring[0] && nblock == |ring|
      requires Apart(ring, [list] + free)
      modifies this`cnt, this`free, list, free, ring
      ensures Valid() && free == ring + old(free)
    {
      ghost var all := [list] + free;
      assert Linked(all, 0) && Linked(ring, 0);
      buf.prev.next := list.next;
      list.next.prev := buf.prev;
      buf.prev := list;
      list.next := buf;
      cnt := cnt + nblock;
      free := ring + free;
      ghost var now := [list] + free;
      assert forall i :: 0 <= i < |now| ==>
               now[i] == if 1 <= i <= nblock then ring[i - 1] else all[if i == 0 then 0 else i - nblock];
      forall i | 0 <= i < |now|
        ensures Linked(now, i)
      {
        if 1 <= i <= nblock {
          assert now[i] == ring[i - 1] && old(Linked(ring, i - 1));
        } else if i > nblock {
          assert now[i] == all[i - nblock] && old(Linked(all, i - nblock));
        }
      }
    }

    /** Getting buffers and putting them back restores the pool, link by link. */
    method GetThenPut(nblock: nat)
      requires Valid() && 1 <= nblock <= cnt
      modifies this`cnt, this`free, list, free
      ensures Valid() && free == old(free) && cnt == old(cnt)
      ensures forall x :: x in [list] + free ==> x.next == old(x.next) && x.prev == old(x.prev)
    {
      ghost var all := [list] + free;
      var buf := Get(nblock);
      ghost var ring := old(free)[..nblock];
      assert [list] + free == [all[0]] + all[nblock + 1..] && ring == all[1..nblock + 1];
      Put(buf, nblock, ring);
      assert [list] + free == all;
      forall x | x in all
        ensures x.next == old(x.next) && x.prev == old(x.prev)
      {
        var i :| 0 <= i < |all| && all[i] == x;
        assert Linked(all, i) && old(Linked([list] + free, i)) && [list] + old(free) == all;
      }
    }
  }
}
