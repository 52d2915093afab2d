/** The clock server (kernel/task/TimeServer.c): what it answers, over every run of messages. */
module ClockRuns {
  import opened MachineWords
  import opened TimedQueues

  const TIMER_SERVER_SIZE: nat := 32

  // ---- the word a client sends ----

  /** ticks |= 0xf0000000, on the values Delay accepts */
  function DelayWord(ticks: nat): int
    requires ticks < 0x00ffffff
  {
    0xf000_0000 + ticks
  }

  /** ticks |= 0x0f000000, on the values DelayUntil accepts */
  function UntilWord(ticks: nat): int
    requires ticks < 0x00ffffff
  {
    0x0f00_0000 + ticks
  }

  /** The time the server makes of a word that arrives at tick now. */
  function Deadline(word: int, now: nat): (d: nat)
    ensures d < TWO24
  {
    if word % TWO32 / TWO28 != 0 then (word + now) % TWO24 else word % TWO24
  }

  /** Delay means so many ticks from now, exactly as long as that time fits in 24 bits. */
  lemma DelayMeans(ticks: nat, now: nat)
    requires ticks < 0x00ffffff
    ensures Deadline(DelayWord(ticks), now) == now + ticks <==> now + ticks < TWO24
  {
    assert (0xf000_0000 + ticks + now) % TWO24 == (ticks + now) % TWO24;
  }

  lemma DelayUntilMeans(ticks: nat, now: nat)
    requires ticks < 0x00ffffff
    ensures Deadline(UntilWord(ticks), now) == ticks
  {
  }

  // ---- one message ----

  /** id is the place of the request in the run. */
  datatype Request = Request(tid: int, id: nat)

  /** A task waiting for its time. */
  type Waiter = Timed<Request>

  datatype Clock = Clock(now: nat, pending: seq<Waiter>)

  datatype Message = Tick(notifier: int) | AskTime(tid: int) | Wait(tid: int, word: int)

  datatype Answer = Empty(tid: int) | TimeIs(tid: int, now: nat) | Wake(waiter: Waiter, at: nat)

  /** Before the first waiter whose time is not below w's. */
  function Insert(ws: seq<Waiter>, w: Waiter): (r: seq<Waiter>)
    ensures |r| == |ws| + 1
  {
    if |ws| == 0 || w.time <= ws[0].time then [w] + ws else [ws[0]] + Insert(ws[1..], w)
  }

  lemma {:induction false} InsertAdds(ws: seq<Waiter>, w: Waiter)
    ensures multiset(Insert(ws, w)) == multiset(ws) + multiset{w}
  {
    if |ws| > 0 && w.time > ws[0].time {
      InsertAdds(ws[1..], w);
      assert ws == [ws[0]] + ws[1..];
    }
  }

  /** The clock when the message itself has been dealt with, before the due waiters are woken. */
  function Noted(c: Clock, m: Message, id: nat): Clock
  {
    match m
    case Tick(_) => c.(now := c.now + 1)
    case AskTime(_) => c
    case Wait(tid, word) => c.(pending := Insert(c.pending, Timed(Deadline(word, c.now), Request(tid, id))))
  }

  function Woken(c: Clock): Clock
  {
    c.(pending := c.pending[Due(c.pending, c.now)..])
  }

  /** One pass of the serve loop. */
  function Serve(c: Clock, m: Message, id: nat): Clock
  {
    Woken(Noted(c, m, id))
  }

  function Direct(c: Clock, m: Message): seq<Answer>
  {
    match m
    case Tick(notifier) => [Empty(notifier)]
    case AskTime(tid) => [TimeIs(tid, c.now)]
    case Wait(_, _) => []
  }

  function Wakes(ws: seq<Waiter>, now: nat): (r: seq<Answer>)
    ensures |r| == |ws| && forall i :: 0 <= i < |ws| ==> r[i] == Wake(ws[i], now)
  {
    seq(|ws|, i requires 0 <= i < |ws| => Wake(ws[i], now))
  }

  /** Its replies, in order. */
  function Answers(c: Clock, m: Message, id: nat): seq<Answer>
  {
    var c' := Noted(c, m, id);
    Direct(c, m) + Wakes(c'.pending[..Due(c'.pending, c'.now)], c'.now)
  }

  // ---- runs ----

  lemma InsertMembers(ws: seq<Waiter>, w: Waiter)
    ensures forall x :: x in Insert(ws, w) ==> x == w || x in ws
  {
  }

  lemma {:induction false} InsertSorted(ws: seq<Waiter>, w: Waiter)
    requires Sorted(ws)
    ensures Sorted(Insert(ws, w))
  {
    if |ws| > 0 {
      TailSorted(ws);
      assert forall x :: x in ws ==> x == ws[0] || x in ws[1..];
    }
    if |ws| == 0 || w.time <= ws[0].time {
      PrependSorted(ws, w);
    } else {
      InsertSorted(ws[1..], w);
      InsertMembers(ws[1..], w);
      PrependSorted(Insert(ws[1..], w), ws[0]);
    }
  }

  /** At the head of the serve loop the list is sorted and nobody is due. */
  ghost predicate Good(c: Clock)
  {
    Sorted(c.pending) && AllAfter(c.pending, c.now)
  }

  lemma NotedSorted(c: Clock, m: Message, id: nat)
    requires Sorted(c.pending)
    ensures Sorted(Noted(c, m, id).pending)
  {
    if m.Wait? {
      InsertSorted(c.pending, Timed(Deadline(m.word, c.now), Request(m.tid, id)));
    }
  }

  lemma ServeGood(c: Clock, m: Message, id: nat, c': Clock)
    requires Good(c) && c' == Serve(c, m, id)
    ensures Good(c')
  {
    NotedSorted(c, m, id);
    var noted := Noted(c, m, id);
    RestIsLater(noted.pending, noted.now);
  }

  const START: Clock := Clock(0, [])

  /** A run: the messages, the clock after each number of them, and all replies up to there. */
  datatype Run = Run(ms: seq<Message>, clock: seq<Clock>, said: seq<seq<Answer>>)

  ghost predicate StepAt(r: Run, i: nat)
    requires i < |r.ms| < |r.clock| && |r.ms| < |r.said|
  {
    r.clock[i + 1] == Serve(r.clock[i], r.ms[i], i) && r.said[i + 1] == r.said[i] + Answers(r.clock[i], r.ms[i], i)
  }

  ghost predicate IsRun(r: Run)
  {
    && |r.clock| == |r.said| == |r.ms| + 1 && r.clock[0] == START && r.said[0] == []
    && forall i {:trigger StepAt(r, i)} :: 0 <= i < |r.ms| ==> StepAt(r, i)
  }

  /** Any messages make a run. */
  lemma {:induction false} RunExists(ms: seq<Message>) returns (r: Run)
    ensures IsRun(r) && r.ms == ms
  {
    if |ms| == 0 {
      r := Run([], [START], [[]]);
    } else {
      var last := |ms| - 1;
      var r0 := RunExists(ms[..last]);
      r := Run(ms, r0.clock + [Serve(r0.clock[last], ms[last], last)],
               r0.said + [r0.said[last] + Answers(r0.clock[last], ms[last], last)]);
      forall i | 0 <= i < |ms|
        ensures StepAt(r, i)
      {
        assert i < last ==> StepAt(r0, i);
      }
    }
  }

  function Max(a: nat, b: nat): nat
  {
    if a < b then b else a
  }

  lemma StepGood(r: Run, i: nat)
    requires i < |r.ms| < |r.clock| && |r.ms| < |r.said| && StepAt(r, i) && Good(r.clock[i])
    ensures Good(r.clock[i + 1])
  {
    ServeGood(r.clock[i], r.ms[i], i, r.clock[i + 1]);
  }

  lemma {:induction false} RunSorted(r: Run, k: nat)
    requires IsRun(r) && k <= |r.ms|
    ensures Good(r.clock[k])
  {
    if k > 0 {
      RunSorted(r, k - 1);
      StepGood(r, k - 1);
    }
  }

  // ---- the time ----

  /** How many of the first k messages come from the notifier. */
  ghost function Ticks(ms: seq<Message>, k: nat): nat
    requires k <= |ms|
  {
    if k == 0 then 0 else Ticks(ms, k - 1) + if ms[k - 1].Tick? then 1 else 0
  }

  lemma {:induction false} NowIsTicks(r: Run, k: nat)
    requires IsRun(r) && k <= |r.ms|
    ensures r.clock[k].now == Ticks(r.ms, k)
  {
    if k > 0 {
      NowIsTicks(r, k - 1);
      assert StepAt(r, k - 1);
    }
  }

  /** In every run: whoever asks for the time is told how many ticks there have been, and nobody is woken by
      that; the notifier gets an empty answer at once, before anybody is woken; whoever wants to wait gets no
      answer but that of being woken. Everybody who is woken is woken at the tick it is. */
  lemma AnswersInRun(r: Run, k: nat)
    requires IsRun(r) && k < |r.ms|
    ensures r.ms[k].AskTime? ==> r.said[k + 1] == r.said[k] + [TimeIs(r.ms[k].tid, Ticks(r.ms, k))]
    ensures r.ms[k].Tick? ==> |r.said[k + 1]| > |r.said[k]| && r.said[k + 1][|r.said[k]|] == Empty(r.ms[k].notifier)
    ensures |r.said[k]| <= |r.said[k + 1]| && r.said[k + 1][..|r.said[k]|] == r.said[k]
    ensures var first := |r.said[k]| + if r.ms[k].Wait? then 0 else 1;
            && first <= |r.said[k + 1]|
            && forall a :: a in r.said[k + 1][first..] ==> a.Wake? && a.at == Ticks(r.ms, k + 1)
  {
    NowIsTicks(r, k);
    NowIsTicks(r, k + 1);
    RunSorted(r, k);
    assert StepAt(r, k);
    if r.ms[k].AskTime? {
      var c := r.clock[k];
      assert Due(c.pending, c.now) == 0;
    }
  }

  // ---- counting ----

  ghost function Waiting(ws: seq<Waiter>, w: Waiter): nat
  {
    multiset(ws)[w]
  }

  ghost function WokenAt(replies: seq<Answer>, w: Waiter, at: nat): nat
  {
    multiset(replies)[Wake(w, at)]
  }

  lemma WaitingSum(a: seq<Waiter>, b: seq<Waiter>, w: Waiter)
    ensures Waiting(a + b, w) == Waiting(a, w) + Waiting(b, w)
  {
  }

  lemma WokenSum(a: seq<Answer>, b: seq<Answer>, w: Waiter, at: nat)
    ensures WokenAt(a + b, w, at) == WokenAt(a, w, at) + WokenAt(b, w, at)
  {
  }

  lemma WaitingIn(ws: seq<Waiter>, w: Waiter)
    ensures Waiting(ws, w) > 0 <==> w in ws
  {
  }

  /** Waking the due waiters divides them by their time. */
  lemma Divided(ws: seq<Waiter>, now: nat, w: Waiter, front: seq<Waiter>, back: seq<Waiter>)
    requires Sorted(ws) && front == ws[..Due(ws, now)] && back == ws[Due(ws, now)..]
    ensures Waiting(front, w) == (if w.time <= now then Waiting(ws, w) else 0)
    ensures Waiting(back, w) == (if w.time <= now then 0 else Waiting(ws, w))
  {
    assert ws == front + back;
    WaitingSum(front, back, w);
    WaitingIn(front, w);
    WaitingIn(back, w);
    RestIsLater(ws, now);
    if w in front {
      DueAreDue(ws, now, w);
    }
  }

  lemma {:induction false} WakesCount(ws: seq<Waiter>, now: nat, w: Waiter, at: nat)
    ensures WokenAt(Wakes(ws, now), w, at) == if at == now then Waiting(ws, w) else 0
  {
    if |ws| > 0 {
      var last := |ws| - 1;
      WakesCount(ws[..last], now, w, at);
      assert ws == ws[..last] + [ws[last]];
      assert Wakes(ws, now) == Wakes(ws[..last], now) + [Wake(ws[last], now)];
    }
  }

  /** The request that message m makes of clock c, as the i-th message. */
  function Asked(c: Clock, m: Message, i: nat): Waiter
    requires m.Wait?
  {
    Timed(Deadline(m.word, c.now), Request(m.tid, i))
  }

  function NewFor(c: Clock, m: Message, i: nat, w: Waiter): nat
  {
    if m.Wait? && w == Asked(c, m, i) then 1 else 0
  }

  function NowAfter(c: Clock, m: Message): nat
  {
    if m.Tick? then c.now + 1 else c.now
  }

  lemma NotedCounts(c: Clock, m: Message, id: nat, w: Waiter)
    ensures var c' := Noted(c, m, id);
            c'.now == NowAfter(c, m)
            && Waiting(c'.pending, w) == Waiting(c.pending, w) + NewFor(c, m, id, w)
  {
    if m.Wait? {
      InsertAdds(c.pending, Asked(c, m, id));
    }
  }

  lemma DirectWakesNobody(c: Clock, m: Message, w: Waiter, at: nat)
    ensures WokenAt(Direct(c, m), w, at) == 0
  {
  }

  /** What one message does to a waiter: it may be added, and it is woken when its time has come. */
  lemma ServeCounts(c: Clock, m: Message, id: nat, w: Waiter, at: nat, c': Clock, replies: seq<Answer>)
    requires Good(c) && c' == Serve(c, m, id) && replies == Answers(c, m, id)
    ensures var now := NowAfter(c, m); var n := Waiting(c.pending, w) + NewFor(c, m, id, w);
            && c'.now == now && Waiting(c'.pending, w) == (if w.time <= now then 0 else n)
            && WokenAt(replies, w, at) == (if w.time <= now && at == now then n else 0)
  {
    var noted := Noted(c, m, id);
    var due := noted.pending[..Due(noted.pending, noted.now)];
    NotedSorted(c, m, id);
    NotedCounts(c, m, id, w);
    Divided(noted.pending, noted.now, w, due, c'.pending);
    WakesCount(due, noted.now, w, at);
    DirectWakesNobody(c, m, w, at);
    WokenSum(Direct(c, m), Wakes(due, noted.now), w, at);
  }

  /** What message id of a run does to waiter w, and what is said to it at tick `at`. */
  ghost predicate Counts(c: Clock, m: Message, id: nat, c': Clock, said: seq<Answer>, said': seq<Answer>, w: Waiter,
                         at: nat)
  {
    var now := NowAfter(c, m);
    var n := Waiting(c.pending, w) + NewFor(c, m, id, w);
    && c'.now == now && Waiting(c'.pending, w) == (if w.time <= now then 0 else n)
    && WokenAt(said', w, at) == WokenAt(said, w, at) + (if w.time <= now && at == now then n else 0)
  }

  lemma StepCounts(r: Run, i: nat, w: Waiter, at: nat)
    requires i < |r.ms| < |r.clock| && |r.ms| < |r.said| && StepAt(r, i) && Good(r.clock[i])
    ensures Counts(r.clock[i], r.ms[i], i, r.clock[i + 1], r.said[i], r.said[i + 1], w, at)
  {
    var replies := Answers(r.clock[i], r.ms[i], i);
    ServeCounts(r.clock[i], r.ms[i], i, w, at, r.clock[i + 1], replies);
    WokenSum(r.said[i], replies, w, at);
  }

  /** The same, over a run. */
  lemma RunCounts(r: Run, k: nat, w: Waiter, at: nat)
    requires IsRun(r) && 0 < k <= |r.ms|
    ensures Counts(r.clock[k - 1], r.ms[k - 1], k - 1, r.clock[k], r.said[k - 1], r.said[k], w, at)
  {
    RunSorted(r, k - 1);
    StepCounts(r, k - 1, w, at);
  }

  // ---- every request is answered once, at the right tick ----

  /** The i-th message of the run as a request; it arrives at tick clock[i].now. */
  ghost function RequestAt(r: Run, i: nat): Waiter
    requires i < |r.ms| < |r.clock| && r.ms[i].Wait?
  {
    Asked(r.clock[i], r.ms[i], i)
  }

  /** Requests not yet made are neither waiting nor woken. */
  lemma {:induction false} NotYet(r: Run, k: nat, w: Waiter, at: nat)
    requires IsRun(r) && k <= |r.ms| && w.item.id >= k
    ensures Waiting(r.clock[k].pending, w) == 0 && WokenAt(r.said[k], w, at) == 0
  {
    if k > 0 {
      NotYet(r, k - 1, w, at);
      RunCounts(r, k, w, at);
    }
  }

  /** The number of ticks never falls. */
  lemma {:induction false} TimePasses(r: Run, i: nat, k: nat)
    requires IsRun(r) && i <= k <= |r.ms|
    ensures r.clock[i].now <= r.clock[k].now
  {
    if i < k {
      TimePasses(r, i, k - 1);
      RunCounts(r, k, Timed(0, Request(0, 0)), 0);
    }
  }

  /** In every run each request is answered exactly once, at its deadline or, if that has passed, at
      once; until then it waits, once. */
  lemma {:induction false} AnsweredOnce(r: Run, k: nat, i: nat, at: nat)
    requires IsRun(r) && i < k <= |r.ms| && r.ms[i].Wait?
    ensures var w := RequestAt(r, i); var due := Max(w.time, r.clock[i].now); var now := r.clock[k].now;
            && Waiting(r.clock[k].pending, w) == (if due <= now then 0 else 1)
            && WokenAt(r.said[k], w, at) == (if due <= now && at == due then 1 else 0)
  {
    var w := RequestAt(r, i);
    RunCounts(r, k, w, at);
    TimePasses(r, i, k - 1);
    if i == k - 1 {
      NotYet(r, k - 1, w, at);
    } else {
      AnsweredOnce(r, k - 1, i, at);
    }
  }

  /** Nobody else is ever woken or kept waiting. */
  lemma {:induction false} NobodyElse(r: Run, k: nat, w: Waiter, at: nat)
    requires IsRun(r) && k <= |r.ms| && (Waiting(r.clock[k].pending, w) > 0 || WokenAt(r.said[k], w, at) > 0)
    ensures w.item.id < k && r.ms[w.item.id].Wait? && w == RequestAt(r, w.item.id)
  {
    if k > 0 {
      RunCounts(r, k, w, at);
      if Waiting(r.clock[k - 1].pending, w) > 0 || WokenAt(r.said[k - 1], w, at) > 0 {
        NobodyElse(r, k - 1, w, at);
      }
    }
  }

  /** So a task that calls Delay is woken once, exactly so many ticks later (24 bits permitting); one
      that calls DelayUntil, at that tick, or at once if it has passed. */
  lemma DelayFires(r: Run, k: nat, i: nat, ticks: nat, at: nat)
    requires IsRun(r) && i < k <= |r.ms| && r.ms[i].Wait? && ticks < 0x00ffffff
    ensures r.ms[i].word == DelayWord(ticks) && r.clock[i].now + ticks < TWO24 ==>
              WokenAt(r.said[k], RequestAt(r, i), at)
              == if r.clock[i].now + ticks <= r.clock[k].now && at == r.clock[i].now + ticks then 1 else 0
    ensures r.ms[i].word == UntilWord(ticks) ==>
              WokenAt(r.said[k], RequestAt(r, i), at)
              == if ticks <= r.clock[k].now && at == Max(ticks, r.clock[i].now) then 1 else 0
  {
    AnsweredOnce(r, k, i, at);
    TimePasses(r, i, k);
    DelayMeans(ticks, r.clock[i].now);
    DelayUntilMeans(ticks, r.clock[i].now);
  }
}
