/** Singly linked lists through an array of `next` fields: next[i] is the cell after cell i. */
module LinkedLists {

  import opened Sequences

  const NONE: int := -1

  function FirstOf(s: seq<nat>): int
  {
    if |s| == 0 then NONE else s[0]
  }

  function LastOf(s: seq<nat>): int
  {
    if |s| == 0 then NONE else s[|s| - 1]
  }

  /** The entry that follows entry i of s. */
  function After(s: seq<nat>, i: nat): int
    requires i < |s|
  {
    FirstOf(s[i + 1..])
  }

  ghost predicate LinkAt(next: seq<int>, s: seq<nat>, i: nat)
    requires i < |s|
  {
    s[i] < |next| && next[s[i]] == After(s, i)
  }

  /** Following `next` from head visits exactly the entries of s, in order. */
  ghost predicate Chain(next: seq<int>, head: int, s: seq<nat>)
  {
    head == FirstOf(s) && forall i {:trigger LinkAt(next, s, i)} :: 0 <= i < |s| ==> LinkAt(next, s, i)
  }

  lemma ChainInRange(next: seq<int>, head: int, s: seq<nat>)
    requires Chain(next, head, s)
    ensures forall i :: 0 <= i < |s| ==> s[i] < |next|
  {
    forall i | 0 <= i < |s|
      ensures s[i] < |next|
    {
      assert LinkAt(next, s, i);
    }
  }

  /** A chain only depends on its own entries. */
  lemma ChainFrame(next: seq<int>, next': seq<int>, head: int, s: seq<nat>)
    requires Chain(next, head, s) && |next| == |next'|
    requires forall t :: 0 <= t < |next| && t in s ==> next'[t] == next[t]
    ensures Chain(next', head, s)
  {
    forall i | 0 <= i < |s|
      ensures LinkAt(next', s, i)
    {
      assert LinkAt(next, s, i);
    }
  }

  /** The list without its first entry. */
  lemma ChainTail(next: seq<int>, head: int, s: seq<nat>)
    requires Chain(next, head, s) && |s| > 0
    ensures 0 <= head < |next| && Chain(next, next[head], s[1..])
  {
    assert LinkAt(next, s, 0);
    forall i | 0 <= i < |s[1..]|
      ensures LinkAt(next, s[1..], i)
    {
      assert LinkAt(next, s, i + 1);
      assert s[1..][i + 1..] == s[i + 1 + 1..];
    }
  }

  /** The list with t in front. */
  lemma ChainPush(next: seq<int>, head: int, s: seq<nat>, t: nat)
    requires Chain(next, head, s) && t < |next| && t !in s
    ensures Chain(next[t := head], t, [t] + s)
  {
    var next' := next[t := head];
    forall i | 0 <= i < |s| + 1
      ensures LinkAt(next', [t] + s, i)
    {
      if i > 0 {
        assert LinkAt(next, s, i - 1);
        assert ([t] + s)[i + 1..] == s[i..];
      } else {
        assert ([t] + s)[1..] == s;
      }
    }
  }

  /** The list with t between its first i entries and the rest. */
  lemma ChainInsert(next: seq<int>, head: int, s: seq<nat>, t: nat, i: nat)
    requires Chain(next, head, s) && t < |next| && t !in s && i <= |s| && Distinct(s)
    ensures i > 0 ==> s[i - 1] < |next|
    ensures Chain(if i == 0 then next[t := head] else next[t := FirstOf(s[i..])][s[i - 1] := t],
                  if i == 0 then t else head, s[..i] + [t] + s[i..])
  {
    if i == 0 {
      ChainPush(next, head, s, t);
      assert s[..0] + [t] + s[0..] == [t] + s;
    } else {
      assert LinkAt(next, s, i - 1);
      var next', s' := next[t := FirstOf(s[i..])][s[i - 1] := t], s[..i] + [t] + s[i..];
      forall j | 0 <= j < |s'|
        ensures LinkAt(next', s', j)
      {
        if j < i {
          assert LinkAt(next, s, j);
        } else if j == i {
          assert s'[j + 1..] == s[i..];
        } else {
          assert LinkAt(next, s, j - 1);
          assert s'[j + 1..] == s[j..];
        }
      }
    }
  }

  /** The list with t behind its last entry. */
  lemma ChainAppend(next: seq<int>, next': seq<int>, head: int, s: seq<nat>, t: nat)
    requires Chain(next, head, s) && |next| == |next'| && t < |next| && t !in s && Distinct(s)
    requires next'[t] == NONE && (|s| > 0 ==> s[|s| - 1] < |next| && next'[s[|s| - 1]] == t)
    requires forall x :: 0 <= x < |next| && x in s && x != s[|s| - 1] ==> next'[x] == next[x]
    ensures Chain(next', FirstOf(s + [t]), s + [t])
  {
    forall i | 0 <= i < |s| + 1
      ensures LinkAt(next', s + [t], i)
    {
      if i < |s| {
        assert LinkAt(next, s, i);
        assert (s + [t])[i + 1..] == s[i + 1..] + [t];
      }
    }
  }

  lemma AppendDistinct(s: seq<nat>, t: nat)
    requires Distinct(s) && t !in s
    ensures Distinct(s + [t])
  {
  }

  lemma InsertDistinct(s: seq<nat>, t: nat, i: nat)
    requires Distinct(s) && t !in s && i <= |s|
    ensures Distinct(s[..i] + [t] + s[i..])
  {
  }

  lemma TailKeeps(s: seq<nat>)
    requires |s| > 0 && Distinct(s)
    ensures Distinct(s[1..]) && s[0] !in s[1..] && forall x :: x in s && x != s[0] ==> x in s[1..]
  {
    forall x | x in s && x != s[0]
      ensures x in s[1..]
    {
      var i :| 0 <= i < |s| && s[i] == x;
      assert s[1..][i - 1] == x;
    }
  }

  /** The list without its entry i. */
  function Without(s: seq<nat>, i: nat): (r: seq<nat>)
    requires i < |s|
    ensures |r| == |s| - 1
  {
    s[..i] + s[i + 1..]
  }

  lemma WithoutKeeps(s: seq<nat>, i: nat)
    requires i < |s| && Distinct(s)
    ensures Distinct(Without(s, i)) && s[i] !in Without(s, i) && forall x :: x in Without(s, i) ==> x in s
    ensures forall x :: x in s && x != s[i] ==> x in Without(s, i)
  {
    var r := Without(s, i);
    forall x | x in r
      ensures x in s && x != s[i]
    {
      var j :| 0 <= j < |r| && r[j] == x;
      assert x == if j < i then s[j] else s[j + 1];
    }
    forall x | x in s && x != s[i]
      ensures x in r
    {
      var j :| 0 <= j < |s| && s[j] == x;
      assert r[if j < i then j else j - 1] == x;
    }
  }

  /** Taking entry i out, by leading its predecessor past it. */
  lemma ChainWithout(next: seq<int>, next': seq<int>, head: int, s: seq<nat>, i: nat)
    requires Chain(next, head, s) && Distinct(s) && i < |s| && |next| == |next'|
    requires i > 0 ==> s[i - 1] < |next| && next'[s[i - 1]] == After(s, i)
    requires forall x :: 0 <= x < |next| && x in s && x != s[i] && (i > 0 ==> x != s[i - 1]) ==> next'[x] == next[x]
    ensures s[i] < |next| && next[s[i]] == After(s, i)
    ensures Chain(next', if i == 0 then After(s, 0) else head, Without(s, i))
  {
    var r := Without(s, i);
    assert LinkAt(next, s, i);
    forall j | 0 <= j < |r|
      ensures LinkAt(next', r, j)
    {
      if j < i {
        assert LinkAt(next, s, j);
        assert r[j + 1..] == if j + 1 < i then s[j + 1..i] + s[i + 1..] else s[i + 1..];
        assert s[j] in s;
      } else {
        assert LinkAt(next, s, j + 1);
        assert r[j + 1..] == s[j + 2..];
        assert s[j + 1] in s;
      }
    }
  }
}
