/** Queues of things that have a time, earliest first. */
module TimedQueues {

  datatype Timed<T> = Timed(time: nat, item: T)

  ghost predicate InOrder<T>(q: seq<Timed<T>>, i: nat, j: nat)
  {
    i < j < |q| ==> q[i].time <= q[j].time
  }

  ghost predicate Sorted<T>(q: seq<Timed<T>>)
  {
    forall i: nat, j: nat {:trigger InOrder(q, i, j)} :: InOrder(q, i, j)
  }

  ghost predicate AllAfter<T>(q: seq<Timed<T>>, now: nat)
  {
    forall w :: w in q ==> w.time > now
  }

  /** How many at the front are due. */
  function Due<T>(q: seq<Timed<T>>, now: nat): (n: nat)
    ensures n <= |q| && (forall i :: 0 <= i < n ==> q[i].time <= now) && (n < |q| ==> q[n].time > now)
  {
    if |q| == 0 || q[0].time > now then 0 else 1 + Due(q[1..], now)
  }

  lemma DropSorted<T>(q: seq<Timed<T>>, n: nat)
    requires Sorted(q) && n <= |q|
    ensures Sorted(q[n..])
  {
    forall i: nat, j: nat
      ensures InOrder(q[n..], i, j)
    {
      var a, b := n + i, n + j;
      assert InOrder(q, a, b);
    }
  }

  lemma TailSorted<T>(q: seq<Timed<T>>)
    requires Sorted(q) && |q| > 0
    ensures Sorted(q[1..]) && forall x :: x in q[1..] ==> q[0].time <= x.time
  {
    DropSorted(q, 1);
    forall x | x in q[1..]
      ensures q[0].time <= x.time
    {
      var i :| 0 <= i < |q[1..]| && q[1..][i] == x;
      assert InOrder(q, 0, i + 1);
    }
  }

  /** Something not later than all of a sorted queue may go before it. */
  lemma PrependSorted<T>(q: seq<Timed<T>>, w: Timed<T>)
    requires Sorted(q) && forall x :: x in q ==> w.time <= x.time
    ensures Sorted([w] + q)
  {
    var r := [w] + q;
    forall i: nat, j: nat
      ensures InOrder(r, i, j)
    {
      if 0 < i < j < |r| {
        assert InOrder(q, i - 1, j - 1);
      } else if i < j < |r| {
        assert r[j] in q;
      }
    }
  }

  /** What is due is due. */
  lemma DueAreDue<T>(q: seq<Timed<T>>, now: nat, w: Timed<T>)
    requires w in q[..Due(q, now)]
    ensures w.time <= now
  {
  }

  /** In a sorted queue nothing behind that is. */
  lemma RestIsLater<T>(q: seq<Timed<T>>, now: nat)
    requires Sorted(q)
    ensures Sorted(q[Due(q, now)..]) && AllAfter(q[Due(q, now)..], now)
  {
    var n := Due(q, now);
    DropSorted(q, n);
    forall w | w in q[n..]
      ensures w.time > now
    {
      var i :| 0 <= i < |q[n..]| && q[n..][i] == w;
      if i > 0 {
        assert InOrder(q, n, n + i);
      }
    }
  }
}
