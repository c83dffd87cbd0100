/** The ring buffers of cmd_internal.h. A ring of size slots holds up to size - 1 elements; the
    operations do not check, and what they do to a full or an empty ring is stated too. */
module CmdQueue {
  /** The slots of a ring in use, oldest first. */
  ghost function Window<T>(slots: seq<T>, head: int, tail: int): seq<T>
    requires 0 <= head < |slots| && 0 <= tail < |slots|
  {
    if head <= tail then slots[head..tail] else slots[head..] + slots[..tail]
  }

  /** The slot after slot i, going round. */
  lemma NextSlot(i: int, size: int)
    requires 0 <= i < size
    ensures (i + 1) % size == if i + 1 == size then 0 else i + 1
  {
    if i + 1 < size {
      assert (i + 1) / size == 0;
    }
  }

  lemma WindowSize<T>(slots: seq<T>, head: int, tail: int)
    requires 0 <= head < |slots| && 0 <= tail < |slots|
    ensures Window(slots, head, tail) == [] <==> head == tail
    ensures |Window(slots, head, tail)| == |slots| - 1 <==> head == (tail + 1) % |slots|
  {
    NextSlot(tail, |slots|);
  }

  class CmdQueue<T(0)> {
    var head: nat
    var tail: nat
    const size: nat
    const arr: array<T>

    ghost predicate Valid()
      reads this
    {
      arr.Length == size && head < size && tail < size
    }

    ghost function Contents(): seq<T>
      requires Valid()
      reads this, arr
    {
      Window(arr[..], head, tail)
    }

    /** init_cmd_queue. */
    constructor (size: nat)
      requires size > 0
      ensures Valid() && fresh(arr) && this.size == size && Contents() == []
    {
      head, tail := 0, 0;
      this.size := size;
      arr := new T[size];
    }

    predicate Empty()
      requires Valid()
      reads this, arr
      ensures Empty() <==> Contents() == []
    {
      WindowSize(arr[..], head, tail);
      head == tail
    }

    predicate Full()
      requires Valid()
      reads this, arr
      ensures Full() <==> |Contents()| == size - 1
    {
      WindowSize(arr[..], head, tail);
      head == (tail + 1) % size
    }

    function GetHead(): (x: T)
      requires Valid() && !Empty()
      reads this, arr
      ensures x == Contents()[0]
    {
      arr[head]
    }

    /** Appends to a ring with room. Pushing onto a full ring makes it read as empty: its whole
        contents are lost, not just one element. */
    method PushTail(x: T)
      requires Valid()
      modifies this`tail, arr
      ensures Valid()
      ensures !old(Full()) ==> Contents() == old(Contents()) + [x]
      ensures old(Full()) ==> Contents() == []
    {
      WindowSize(arr[..], head, tail);
      ghost var was := arr[..];
      arr[tail] := x;
      assert arr[..] == was[tail := x];
      if head != (tail + 1) % size {
        PushWindow(was, head, tail, x);
      }
      tail := (tail + 1) % size;
      WindowSize(arr[..], head, tail);
    }

    /** Removes the oldest element. Popping an empty ring makes it read as full. */
    method PopHead()
      requires Valid()
      modifies this`head
      ensures Valid()
      ensures !old(Empty()) ==> Contents() == old(Contents())[1..]
      ensures old(Empty()) ==> |Contents()| == size - 1
    {
      PopWindow(arr[..], head, tail);
      head := (head + 1) % size;
    }
  }

  lemma PushWindow<T>(slots: seq<T>, head: int, tail: int, x: T)
    requires 0 <= head < |slots| && 0 <= tail < |slots| && head != (tail + 1) % |slots|
    ensures Window(slots[tail := x], head, (tail + 1) % |slots|) == Window(slots, head, tail) + [x]
  {
    NextSlot(tail, |slots|);
    var slots' := slots[tail := x];
    if head <= tail {
      assert slots'[head..tail] == slots[head..tail];
      if tail + 1 == |slots| {
        assert slots'[head..] == slots'[head..tail] + [x];
      } else {
        assert slots'[head..tail + 1] == slots'[head..tail] + [x];
      }
    } else {
      assert slots'[..tail + 1] == slots[..tail] + [x] && slots'[head..] == slots[head..];
    }
  }

  lemma PopWindow<T>(slots: seq<T>, head: int, tail: int)
    requires 0 <= head < |slots| && 0 <= tail < |slots|
    ensures head != tail ==> Window(slots, (head + 1) % |slots|, tail) == Window(slots, head, tail)[1..]
    ensures head == tail ==> |Window(slots, (head + 1) % |slots|, tail)| == |slots| - 1
  {
    NextSlot(head, |slots|);
    if head < tail {
      assert slots[head + 1..tail] == slots[head..tail][1..];
    } else if tail < head && head + 1 < |slots| {
      assert slots[head + 1..] + slots[..tail] == (slots[head..] + slots[..tail])[1..];
    }
  }
}
