/** Small vocabulary shared by every module: optional values and sequences without repetition. */
module Base {

  datatype Option<+T> = None | Some(value: T) {
    function GetOr(default: T): T {
      if Some? then value else default
    }
  }

  ghost predicate NoDup<T>(q: seq<T>) {
    forall i, j :: 0 <= i < j < |q| ==> q[i] != q[j]
  }

  /** q lists, without repetition, exactly the numbers that place sends to l. */
  ghost predicate Lists<L(!new)>(q: seq<nat>, place: seq<L>, l: L) {
    NoDup(q) && forall x: nat :: x in q <==> x < |place| && place[x] == l
  }

  lemma ListsPop<L(!new)>(q: seq<nat>, place: seq<L>, l: L, l': L)
    requires Lists(q, place, l) && q != [] && l != l'
    ensures q[0] < |place| && place[q[0]] == l
    ensures Lists(q[1..], place[q[0] := l'], l)
  {
    assert q[0] in q;
    forall x: nat
      ensures x in q[1..] <==> x < |place| && place[q[0] := l'][x] == l
    {
      if x in q && x != q[0] {
        var i :| 0 <= i < |q| && q[i] == x;
        assert q[1..][i - 1] == x;
      }
    }
  }

  lemma ListsPush<L(!new)>(q: seq<nat>, place: seq<L>, l: L, x: nat)
    requires Lists(q, place, l) && x < |place| && place[x] != l
    ensures Lists(q + [x], place[x := l], l)
  {
    assert x !in q;
    forall y: nat
      ensures y in q + [x] <==> y < |place| && place[x := l][y] == l
    {
      if y < |place| && y != x {
        assert place[x := l][y] == place[y];
      }
      assert y in q + [x] <==> y in q || y == x;
    }
  }

  lemma ListsKeep<L(!new)>(q: seq<nat>, place: seq<L>, l: L, x: nat, l': L)
    requires Lists(q, place, l) && x < |place| && place[x] != l && l' != l
    ensures Lists(q, place[x := l'], l)
  {
    forall y: nat
      ensures y in q <==> y < |place| && place[x := l'][y] == l
    {
      if y < |place| && y != x {
        assert place[x := l'][y] == place[y];
      }
    }
  }

  /** The first position of x in q. */
  function IndexOf<T(==)>(q: seq<T>, x: T): (i: nat)
    requires x in q
    ensures i < |q| && q[i] == x
  {
    if q[0] == x then 0 else 1 + IndexOf(q[1..], x)
  }

  lemma IndexOfUnique<T>(q: seq<T>, i: nat)
    requires NoDup(q) && i < |q|
    ensures q[i] in q && IndexOf(q, q[i]) == i
  {
    var j := IndexOf(q, q[i]);
  }

  /** A set listed without repetition has as many elements as the list. */
  lemma {:induction false} ListSize<T>(q: seq<T>, s: set<T>)
    requires NoDup(q) && forall x :: x in s <==> x in q
    ensures |s| == |q|
  {
    if q == [] {
      assert s == {};
    } else {
      var n := |q| - 1;
      forall x
        ensures x in s - {q[n]} <==> x in q[..n]
      {
        if x in q[..n] {
          var i :| 0 <= i < n && q[..n][i] == x;
          assert q[i] == x && q[i] != q[n];
        }
      }
      ListSize(q[..n], s - {q[n]});
      assert q[n] in s;
    }
  }

  /** There are at most n numbers below n. */
  lemma {:induction false} BelowSize(s: set<nat>, n: nat)
    requires forall x :: x in s ==> x < n
    ensures |s| <= n
    decreases n
  {
    if n == 0 {
      assert s == {};
    } else {
      BelowSize(s - {n - 1}, n - 1);
    }
  }

  lemma ListBelow(q: seq<nat>, n: nat)
    requires NoDup(q) && forall x :: x in q ==> x < n
    ensures |q| <= n
  {
    var s := set x | x in q;
    ListSize(q, s);
    BelowSize(s, n);
  }

  /** 0, 1, ..., n - 1 lists the numbers below n. */
  lemma UpTo(q: seq<nat>)
    requires forall i :: 0 <= i < |q| ==> q[i] == i
    ensures NoDup(q) && forall x: nat :: x in q <==> x < |q|
  {
    forall x: nat | x < |q|
      ensures x in q
    {
      assert q[x] == x;
    }
  }
}
