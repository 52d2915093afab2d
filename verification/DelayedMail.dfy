/** Delayed mail of the RTX system (os/timer/timer0.c): when and in which order the timer process sends it. */
module DelayedMail {
  import opened TimedQueues

  /** A mail: the memory block it is, and who is to get it. */
  datatype Parcel = Parcel(block: nat, destination: int)

  /** A mail waiting in the timer's queue until it is to be sent. */
  type Mail = Timed<Parcel>

  /** A mail received by the timer process; one that is not marked as delayed is dropped. */
  datatype Incoming = Incoming(block: nat, destination: int, delay: nat, delayed: bool)

  /** The timer process at the end of a tick. */
  datatype Post = Post(now: nat, queue: seq<Mail>)

  /** Mailbox_insertMailByTime: behind every mail that is not later. */
  function InsertByTime(q: seq<Mail>, m: Mail): (r: seq<Mail>)
    ensures |r| == |q| + 1
  {
    if |q| == 0 || m.time < q[0].time then [m] + q else [q[0]] + InsertByTime(q[1..], m)
  }

  /** The mails a tick at time now puts in the queue, in order of arrival. */
  function Kept(now: nat, ins: seq<Incoming>): seq<Mail>
  {
    if |ins| == 0 then []
    else
      var last := ins[|ins| - 1];
      Kept(now, ins[..|ins| - 1]) + if last.delayed
        then [Timed(now + last.delay, Parcel(last.block, last.destination))] else []
  }

  function InsertAll(q: seq<Mail>, ms: seq<Mail>): (r: seq<Mail>)
    ensures |r| == |q| + |ms|
  {
    if |ms| == 0 then q else InsertByTime(InsertAll(q, ms[..|ms| - 1]), ms[|ms| - 1])
  }

  /** The queue in the middle of a tick, when all mail has been received. */
  function Received(p: Post, ins: seq<Incoming>): seq<Mail>
  {
    InsertAll(p.queue, Kept(p.now + 1, ins))
  }

  /** One turn of the loop in timer_i_process, and the mails it sends. */
  function Tick(p: Post, ins: seq<Incoming>): Post
  {
    var q := Received(p, ins);
    Post(p.now + 1, q[Due(q, p.now + 1)..])
  }

  function Fired(p: Post, ins: seq<Incoming>): seq<Mail>
  {
    var q := Received(p, ins);
    q[..Due(q, p.now + 1)]
  }

  // ---- order ----

  lemma InsertMembers(q: seq<Mail>, m: Mail)
    ensures forall x :: x in InsertByTime(q, m) <==> x == m || x in q
  {
  }

  lemma {:induction false} InsertSorted(q: seq<Mail>, m: Mail)
    requires Sorted(q)
    ensures Sorted(InsertByTime(q, m))
  {
    if |q| > 0 {
      TailSorted(q);
      assert forall x :: x in q ==> x == q[0] || x in q[1..];
    }
    if |q| == 0 || m.time < q[0].time {
      PrependSorted(q, m);
    } else {
      InsertSorted(q[1..], m);
      InsertMembers(q[1..], m);
      PrependSorted(InsertByTime(q[1..], m), q[0]);
    }
  }

  lemma {:induction false} InsertAllSorted(q: seq<Mail>, ms: seq<Mail>)
    requires Sorted(q)
    ensures Sorted(InsertAll(q, ms)) && forall x :: x in InsertAll(q, ms) ==> x in q || x in ms
  {
    if |ms| > 0 {
      var before, last := InsertAll(q, ms[..|ms| - 1]), ms[|ms| - 1];
      InsertAllSorted(q, ms[..|ms| - 1]);
      InsertSorted(before, last);
      InsertMembers(before, last);
    }
  }

  lemma {:induction false} KeptLater(now: nat, ins: seq<Incoming>)
    ensures forall x :: x in Kept(now, ins) ==> x.time >= now
  {
    if |ins| > 0 {
      KeptLater(now, ins[..|ins| - 1]);
    }
  }

  // ---- the mails of one time ----

  /** The mails to be sent at time t among the first k, in their order. */
  ghost function AtUpTo(q: seq<Mail>, t: nat, k: nat): seq<Mail>
    requires k <= |q|
  {
    if k == 0 then [] else AtUpTo(q, t, k - 1) + if q[k - 1].time == t then [q[k - 1]] else []
  }

  /** The mails to be sent at time t, in their order. */
  ghost function At(q: seq<Mail>, t: nat): seq<Mail>
  {
    AtUpTo(q, t, |q|)
  }

  lemma {:induction false} AtPrefix(a: seq<Mail>, b: seq<Mail>, t: nat, k: nat)
    requires k <= |a|
    ensures AtUpTo(a + b, t, k) == AtUpTo(a, t, k)
  {
    if k > 0 {
      AtPrefix(a, b, t, k - 1);
    }
  }

  lemma {:induction false} AtSumUpTo(a: seq<Mail>, b: seq<Mail>, t: nat, k: nat)
    requires k <= |b|
    ensures AtUpTo(a + b, t, |a| + k) == At(a, t) + AtUpTo(b, t, k)
  {
    if k == 0 {
      AtPrefix(a, b, t, |a|);
    } else {
      AtSumUpTo(a, b, t, k - 1);
    }
  }

  lemma AtSum(a: seq<Mail>, b: seq<Mail>, t: nat)
    ensures At(a + b, t) == At(a, t) + At(b, t)
  {
    AtSumUpTo(a, b, t, |b|);
  }

  lemma {:induction false} AtNoneUpTo(q: seq<Mail>, t: nat, k: nat)
    requires k <= |q| && forall x :: x in q ==> x.time != t
    ensures AtUpTo(q, t, k) == []
  {
    if k > 0 {
      AtNoneUpTo(q, t, k - 1);
    }
  }

  lemma AtNone(q: seq<Mail>, t: nat)
    requires forall x :: x in q ==> x.time != t
    ensures At(q, t) == []
  {
    AtNoneUpTo(q, t, |q|);
  }

  lemma AtOne(m: Mail, t: nat)
    ensures At([m], t) == if m.time == t then [m] else []
  {
    assert AtUpTo([m], t, 0) == [];
  }

  /** A mail joins behind all others of its time, and changes nothing for other times. */
  lemma {:induction false} InsertStable(q: seq<Mail>, m: Mail, t: nat)
    requires Sorted(q)
    ensures At(InsertByTime(q, m), t) == At(q, t) + At([m], t)
  {
    AtOne(m, t);
    if |q| > 0 {
      TailSorted(q);
    }
    if |q| == 0 || m.time < q[0].time {
      AtSum([m], q, t);
      if m.time == t {
        AtNone(q, t);
      }
    } else {
      var rest := q[1..];
      InsertStable(rest, m, t);
      AtSum([q[0]], InsertByTime(rest, m), t);
      AtSum([q[0]], rest, t);
      assert q == [q[0]] + rest;
      assert At([q[0]], t) + (At(rest, t) + At([m], t)) == At([q[0]], t) + At(rest, t) + At([m], t);
    }
  }

  lemma {:induction false} InsertAllStable(q: seq<Mail>, ms: seq<Mail>, t: nat)
    requires Sorted(q)
    ensures At(InsertAll(q, ms), t) == At(q, t) + At(ms, t)
  {
    if |ms| > 0 {
      var front, last := ms[..|ms| - 1], ms[|ms| - 1];
      InsertAllStable(q, front, t);
      InsertAllSorted(q, front);
      InsertStable(InsertAll(q, front), last, t);
      AtSum(front, [last], t);
      assert ms == front + [last];
      assert At(q, t) + At(front, t) + At([last], t) == At(q, t) + (At(front, t) + At([last], t));
    }
  }

  // ---- runs ----

  ghost predicate Good(p: Post)
  {
    Sorted(p.queue) && AllAfter(p.queue, p.now)
  }

  lemma ReceivedSorted(p: Post, ins: seq<Incoming>)
    requires Good(p)
    ensures Sorted(Received(p, ins)) && AllAfter(Received(p, ins), p.now)
  {
    InsertAllSorted(p.queue, Kept(p.now + 1, ins));
    KeptLater(p.now + 1, ins);
  }

  /** At the end of a tick no mail that is due remains, and each mail sent was due exactly now. */
  lemma TickGood(p: Post, ins: seq<Incoming>)
    requires Good(p)
    ensures Good(Tick(p, ins)) && forall m :: m in Fired(p, ins) ==> m.time == p.now + 1
  {
    var q := Received(p, ins);
    ReceivedSorted(p, ins);
    RestIsLater(q, p.now + 1);
  }

  /** Sending divides the mails by their time. */
  lemma Divided(q: seq<Mail>, now: nat, t: nat, front: seq<Mail>, back: seq<Mail>)
    requires Sorted(q) && front == q[..Due(q, now)] && back == q[Due(q, now)..]
    ensures At(front, t) == if t <= now then At(q, t) else []
    ensures At(back, t) == if t <= now then [] else At(q, t)
  {
    assert q == front + back;
    AtSum(front, back, t);
    if t <= now {
      RestIsLater(q, now);
      AtNone(back, t);
    } else {
      AtNone(front, t);
    }
  }

  lemma ReceivedAt(p: Post, ins: seq<Incoming>, t: nat, q: seq<Mail>, kept: seq<Mail>)
    requires Sorted(p.queue) && q == Received(p, ins) && kept == Kept(p.now + 1, ins)
    ensures At(q, t) == At(p.queue, t) + At(kept, t)
  {
    InsertAllStable(p.queue, kept, t);
  }

  lemma KeptNone(now: nat, ins: seq<Incoming>, t: nat)
    requires t < now
    ensures At(Kept(now, ins), t) == []
  {
    KeptLater(now, ins);
    AtNone(Kept(now, ins), t);
  }

  /** What one tick does to the mails of time t. */
  lemma TickAt(p: Post, ins: seq<Incoming>, t: nat, p': Post, fired: seq<Mail>, kept: seq<Mail>, q: seq<Mail>)
    requires Good(p) && p' == Tick(p, ins) && fired == Fired(p, ins) && kept == Kept(p.now + 1, ins)
    requires q == Received(p, ins)
    ensures p'.now == p.now + 1 && At(q, t) == At(p.queue, t) + At(kept, t)
    ensures At(fired, t) == if t <= p'.now then At(q, t) else []
    ensures At(p'.queue, t) == if t <= p'.now then [] else At(q, t)
  {
    ReceivedSorted(p, ins);
    ReceivedAt(p, ins, t, q, kept);
    Divided(q, p.now + 1, t, fired, p'.queue);
  }

  /** A run: what arrives in each tick; the timer process and all mails sent after each number of ticks. */
  datatype Run = Run(ins: seq<seq<Incoming>>, post: seq<Post>, sent: seq<seq<Mail>>)

  ghost predicate StepAt(r: Run, i: nat)
    requires i < |r.ins| && |r.ins| < |r.post| && |r.ins| < |r.sent|
  {
    r.post[i + 1] == Tick(r.post[i], r.ins[i]) && r.sent[i + 1] == r.sent[i] + Fired(r.post[i], r.ins[i])
  }

  ghost predicate IsRun(r: Run)
  {
    && |r.post| == |r.sent| == |r.ins| + 1
    && r.post[0] == Post(0, []) && r.sent[0] == []
    && forall i {:trigger StepAt(r, i)} :: 0 <= i < |r.ins| ==> StepAt(r, i)
  }

  /** Any mail that arrives makes a run. */
  lemma {:induction false} RunExists(ins: seq<seq<Incoming>>) returns (r: Run)
    ensures IsRun(r) && r.ins == ins
  {
    if |ins| == 0 {
      r := Run([], [Post(0, [])], [[]]);
    } else {
      var last := |ins| - 1;
      var r0 := RunExists(ins[..last]);
      var p, sent := r0.post[last], r0.sent[last];
      r := Run(ins, r0.post + [Tick(p, ins[last])], r0.sent + [sent + Fired(p, ins[last])]);
      forall i | 0 <= i < |ins|
        ensures StepAt(r, i)
      {
        assert i < last ==> StepAt(r0, i);
      }
    }
  }

  lemma GoodTick(p: Post, ins: seq<Incoming>, p': Post)
    requires Good(p) && p' == Tick(p, ins)
    ensures Good(p') && p'.now == p.now + 1
  {
    TickGood(p, ins);
  }

  lemma {:induction false} RunGood(r: Run, k: nat)
    requires IsRun(r) && k <= |r.ins|
    ensures Good(r.post[k]) && r.post[k].now == k
  {
    if k > 0 {
      RunGood(r, k - 1);
      assert StepAt(r, k - 1);
      GoodTick(r.post[k - 1], r.ins[k - 1], r.post[k]);
    }
  }

  // ---- what is sent when ----

  /** What is wanted for time t of the first j things that arrive in a tick: those marked as delayed, the
      number of which is the tick plus the delay, each with its block and its destination. */
  ghost function WantedOfTick(tick: nat, ms: seq<Incoming>, t: nat, j: nat): seq<Mail>
    requires j <= |ms|
  {
    if j == 0 then []
    else
      var m := ms[j - 1];
      WantedOfTick(tick, ms, t, j - 1) +
        if m.delayed && tick + m.delay == t then [Timed(t, Parcel(m.block, m.destination))] else []
  }

  /** What is wanted for time t of all that arrives in the first k ticks, in order of arrival. The first
      tick is number 1. */
  ghost function Wanted(ins: seq<seq<Incoming>>, t: nat, k: nat): seq<Mail>
    requires k <= |ins|
  {
    if k == 0 then [] else Wanted(ins, t, k - 1) + WantedOfTick(k, ins[k - 1], t, |ins[k - 1]|)
  }

  lemma WantedOne(tick: nat, m: Incoming, t: nat, one: seq<Mail>)
    requires one == if m.delayed then [Timed(tick + m.delay, Parcel(m.block, m.destination))] else []
    ensures At(one, t) ==
            if m.delayed && tick + m.delay == t then [Timed(t, Parcel(m.block, m.destination))] else []
  {
    if m.delayed {
      AtOne(one[0], t);
    }
  }

  lemma {:induction false} KeptAt(tick: nat, ms: seq<Incoming>, t: nat, j: nat)
    requires j <= |ms|
    ensures At(Kept(tick, ms[..j]), t) == WantedOfTick(tick, ms, t, j)
  {
    if j > 0 {
      KeptAt(tick, ms, t, j - 1);
      var m, before, front := ms[j - 1], Kept(tick, ms[..j - 1]), ms[..j];
      var one := if m.delayed then [Timed(tick + m.delay, Parcel(m.block, m.destination))] else [];
      assert Kept(tick, front) == before + one by {
        assert front[..j - 1] == ms[..j - 1];
      }
      AtSum(before, one, t);
      WantedOne(tick, m, t, one);
    }
  }

  lemma WantedNext(ins: seq<seq<Incoming>>, t: nat, k: nat, added: seq<Mail>)
    requires 0 < k <= |ins| && added == At(Kept(k, ins[k - 1]), t)
    ensures Wanted(ins, t, k) == Wanted(ins, t, k - 1) + added
  {
    var ms := ins[k - 1];
    KeptAt(k, ms, t, |ms|);
    assert ms[..|ms|] == ms;
  }

  /** One step of a run, for the mails of time t. */
  lemma StepOfRun(r: Run, k: nat, t: nat, sent: seq<Mail>, queue: seq<Mail>, wanted: seq<Mail>)
    returns (before: seq<Mail>, added: seq<Mail>)
    requires IsRun(r) && 0 < k <= |r.ins|
    requires sent == At(r.sent[k], t) && queue == At(r.post[k].queue, t) && wanted == Wanted(r.ins, t, k)
    ensures before == At(r.post[k - 1].queue, t) && (t < k ==> added == [])
    ensures wanted == Wanted(r.ins, t, k - 1) + added
    ensures sent == At(r.sent[k - 1], t) + At(Fired(r.post[k - 1], r.ins[k - 1]), t)
    ensures At(Fired(r.post[k - 1], r.ins[k - 1]), t) == if t <= k then before + added else []
    ensures queue == if t <= k then [] else before + added
  {
    RunGood(r, k - 1);
    assert StepAt(r, k - 1);
    var p, ins := r.post[k - 1], r.ins[k - 1];
    var fired, kept, q := Fired(p, ins), Kept(p.now + 1, ins), Received(p, ins);
    TickAt(p, ins, t, r.post[k], fired, kept, q);
    before, added := At(p.queue, t), At(kept, t);
    WantedNext(r.ins, t, k, added);
    if t < k {
      KeptNone(k, ins, t);
    }
    AtSum(r.sent[k - 1], fired, t);
  }

  /** All that is wanted for a time has been sent once it has come, and none of it before. */
  predicate Served(t: nat, k: nat, sent: seq<Mail>, queue: seq<Mail>, wanted: seq<Mail>)
  {
    if t <= k then sent == wanted && queue == [] else sent == [] && queue == wanted
  }

  lemma ServedNext(t: nat, k: nat, sent: seq<Mail>, queue: seq<Mail>, wanted: seq<Mail>, added: seq<Mail>,
                   fired: seq<Mail>, sent': seq<Mail>, queue': seq<Mail>, wanted': seq<Mail>)
    requires 0 < k && Served(t, k - 1, sent, queue, wanted) && (t < k ==> added == [])
    requires fired == (if t <= k then queue + added else []) && sent' == sent + fired
    requires queue' == (if t <= k then [] else queue + added) && wanted' == wanted + added
    ensures Served(t, k, sent', queue', wanted') && (t == k ==> fired == wanted')
  {
  }

  /** After k ticks the mails sent for each time up to k are exactly those wanted for it, in order of
      arrival; those wanted for later times are all still there, in that order. */
  lemma {:induction false} SentInOrder(r: Run, k: nat, t: nat)
    requires IsRun(r) && k <= |r.ins|
    ensures Served(t, k, At(r.sent[k], t), At(r.post[k].queue, t), Wanted(r.ins, t, k))
  {
    if k > 0 {
      SentInOrder(r, k - 1, t);
      var fired := SentNext(r, k, t);
    }
  }

  lemma SentNext(r: Run, k: nat, t: nat) returns (fired: seq<Mail>)
    requires IsRun(r) && 0 < k <= |r.ins|
    requires Served(t, k - 1, At(r.sent[k - 1], t), At(r.post[k - 1].queue, t), Wanted(r.ins, t, k - 1))
    ensures Served(t, k, At(r.sent[k], t), At(r.post[k].queue, t), Wanted(r.ins, t, k))
    ensures fired == At(Fired(r.post[k - 1], r.ins[k - 1]), t) && (t == k ==> fired == Wanted(r.ins, t, k))
  {
    var sent, queue, wanted := At(r.sent[k], t), At(r.post[k].queue, t), Wanted(r.ins, t, k);
    var before, added := StepOfRun(r, k, t, sent, queue, wanted);
    fired := At(Fired(r.post[k - 1], r.ins[k - 1]), t);
    ServedNext(t, k, At(r.sent[k - 1], t), before, Wanted(r.ins, t, k - 1), added, fired, sent, queue, wanted);
  }

  lemma {:induction false} AtAll(q: seq<Mail>, t: nat, k: nat)
    requires k <= |q| && forall m :: m in q ==> m.time == t
    ensures AtUpTo(q, t, k) == q[..k]
  {
    if k > 0 {
      AtAll(q, t, k - 1);
    }
  }

  lemma FiredNow(r: Run, k: nat, fired: seq<Mail>)
    requires IsRun(r) && 0 < k <= |r.ins| && fired == Fired(r.post[k - 1], r.ins[k - 1])
    ensures At(fired, k) == fired && r.sent[k] == r.sent[k - 1] + fired
  {
    RunGood(r, k - 1);
    TickGood(r.post[k - 1], r.ins[k - 1]);
    AtAll(fired, k, |fired|);
    assert fired[..|fired|] == fired && StepAt(r, k - 1);
  }

  /** What tick k sends is neither early nor late: it is exactly what is wanted for k, in order of arrival. */
  lemma SentOnTime(r: Run, k: nat)
    requires IsRun(r) && 0 < k <= |r.ins|
    ensures r.sent[k] == r.sent[k - 1] + Wanted(r.ins, k, k)
  {
    SentInOrder(r, k - 1, k);
    var fired := SentNext(r, k, k);
    FiredNow(r, k, Fired(r.post[k - 1], r.ins[k - 1]));
  }
}
