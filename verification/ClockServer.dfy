/** The clock server in place (kernel/task/TimeServer.c): two linked lists over one array of slots. */
module ClockInPlace {
  import opened ClockRuns
  import opened TimedQueues
  import opened LinkedLists
  import opened Sequences

  datatype RegisteredTask = RegisteredTask(tid: int, time: int, next: int)

  ghost function Nexts(stack: seq<RegisteredTask>): (next: seq<int>)
    ensures |next| == |stack| && forall t :: 0 <= t < |stack| ==> next[t] == stack[t].next
  {
    seq(|stack|, t requires 0 <= t < |stack| => stack[t].next)
  }

  /** The two lists together are all the slots, each once. */
  ghost predicate Slots(used: seq<nat>, free: seq<nat>)
  {
    && |used| + |free| == TIMER_SERVER_SIZE && Distinct(used) && Distinct(free)
    && (forall t :: t in used ==> t < TIMER_SERVER_SIZE && t !in free)
    && (forall t :: t in free ==> t < TIMER_SERVER_SIZE)
  }

  /** The slot at place i of the list is that of the i-th waiter. */
  ghost predicate HoldsAt(stack: seq<RegisteredTask>, used: seq<nat>, ws: seq<Waiter>, i: nat)
    requires i < |used| == |ws|
  {
    used[i] < |stack| && stack[used[i]].tid == ws[i].item.tid && stack[used[i]].time == ws[i].time
  }

  ghost predicate Holds(stack: seq<RegisteredTask>, used: seq<nat>, ws: seq<Waiter>)
  {
    |used| == |ws| && forall i {:trigger HoldsAt(stack, used, ws, i)} :: 0 <= i < |used| ==> HoldsAt(stack, used, ws, i)
  }

  /** The slots represent the waiters, in order, and the rest is free. */
  ghost predicate Represents(stack: seq<RegisteredTask>, tasks: int, taskSlots: int, used: seq<nat>, free: seq<nat>,
                             ws: seq<Waiter>)
  {
    && |stack| == TIMER_SERVER_SIZE && Slots(used, free)
    && Chain(Nexts(stack), tasks, used) && Chain(Nexts(stack), taskSlots, free) && Holds(stack, used, ws)
  }

  // ---- what is said ----

  /** A reply as the kernel sees it: to whom, and the word in it if any. */
  datatype Reply = Reply(tid: int, words: seq<int>)

  function Said(a: Answer): Reply
  {
    match a
    case Empty(tid) => Reply(tid, [])
    case TimeIs(tid, now) => Reply(tid, [now])
    case Wake(w, _) => Reply(w.item.tid, [])
  }

  function SaidAll(answers: seq<Answer>): (r: seq<Reply>)
    ensures |r| == |answers| && forall i :: 0 <= i < |r| ==> r[i] == Said(answers[i])
  {
    seq(|answers|, i requires 0 <= i < |answers| => Said(answers[i]))
  }

  /** First what is said at once, then the wake-ups. */
  lemma AllSaid(c: Clock, m: Message, id: nat, direct: seq<Reply>, woken: seq<Reply>)
    requires direct == SaidAll(Direct(c, m))
    requires var c' := Noted(c, m, id); woken == SaidAll(Wakes(c'.pending[..Due(c'.pending, c'.now)], c'.now))
    ensures direct + woken == SaidAll(Answers(c, m, id))
  {
  }

  // ---- one insertion ----

  lemma InsertBehind(ws: seq<Waiter>, w: Waiter)
    requires |ws| > 0 && ws[0].time < w.time
    ensures Insert(ws, w) == [ws[0]] + Insert(ws[1..], w)
  {
  }

  /** Where the walk of the insertion stops is where Insert puts the waiter. */
  lemma {:induction false} InsertSplits(ws: seq<Waiter>, w: Waiter, i: nat)
    requires i <= |ws| && (forall j :: 0 <= j < i ==> ws[j].time < w.time) && (i < |ws| ==> w.time <= ws[i].time)
    ensures Insert(ws, w) == ws[..i] + [w] + ws[i..]
  {
    if i == 0 {
      assert ws[..0] + [w] + ws[0..] == [w] + ws;
    } else {
      var rest := ws[1..];
      InsertBehind(ws, w);
      InsertSplits(rest, w, i - 1);
      assert [ws[0]] + rest[..i - 1] == ws[..i];
      assert [ws[0]] + (rest[..i - 1] + [w] + rest[i - 1..]) == [ws[0]] + rest[..i - 1] + [w] + rest[i - 1..];
    }
  }

  /** Taking the first free slot for a waiter at place i. */
  function Registered(stack: seq<RegisteredTask>, t: nat, previous: int, current: int, tid: int,
                      time: int): (r: seq<RegisteredTask>)
    requires t < |stack| && (previous == NONE || 0 <= previous < |stack|)
    ensures |r| == |stack|
  {
    var linked := if previous == NONE then stack else stack[previous := stack[previous].(next := t)];
    linked[t := RegisteredTask(tid, time, current)]
  }

  lemma SlotsInsert(used: seq<nat>, free: seq<nat>, i: nat)
    requires Slots(used, free) && i <= |used| && |free| > 0
    ensures free[0] < TIMER_SERVER_SIZE && free[0] !in used && free[0] !in free[1..]
    ensures Slots(used[..i] + [free[0]] + used[i..], free[1..])
  {
    var used', rest := used[..i] + [free[0]] + used[i..], free[1..];
    assert free[0] in free;
    TailKeeps(free);
    InsertDistinct(used, free[0], i);
    forall t | t in used'
      ensures t == free[0] || t in used
    {
    }
    forall t | t in rest
      ensures t in free
    {
    }
  }

  lemma SlotsRelease(used: seq<nat>, free: seq<nat>)
    requires Slots(used, free) && |used| > 0
    ensures Slots(used[1..], [used[0]] + free) && used[0] !in free && used[0] !in used[1..]
    ensures used[0] < TIMER_SERVER_SIZE
  {
    var rest := used[1..];
    assert used[0] in used;
    TailKeeps(used);
    forall t | t in rest
      ensures t in used
    {
    }
  }

  // ---- the lists ----

  /** The insertion found its place behind i waiters. */
  lemma RegisterRepresents(stack: seq<RegisteredTask>, tasks: int, taskSlots: int, used: seq<nat>, free: seq<nat>,
                           ws: seq<Waiter>, w: Waiter, i: nat)
    requires Represents(stack, tasks, taskSlots, used, free, ws) && |free| > 0
    requires i <= |ws| && (forall j :: 0 <= j < i ==> ws[j].time < w.time) && (i < |ws| ==> w.time <= ws[i].time)
    ensures var previous, current := (if i == 0 then NONE else used[i - 1]), FirstOf(used[i..]);
            && 0 <= taskSlots < |stack| && (i > 0 ==> used[i - 1] < |stack|)
            && Represents(Registered(stack, taskSlots, previous, current, w.item.tid, w.time),
                          if i == 0 then taskSlots else tasks,
                          stack[taskSlots].next, used[..i] + [free[0]] + used[i..], free[1..], Insert(ws, w))
  {
    var t := free[0];
    ChainInRange(Nexts(stack), tasks, used);
    ChainTail(Nexts(stack), taskSlots, free);
    SlotsInsert(used, free, i);
    InsertSplits(ws, w, i);
    ChainInsert(Nexts(stack), tasks, used, t, i);
    var previous, current := if i == 0 then NONE else used[i - 1], FirstOf(used[i..]);
    var stack' := Registered(stack, t, previous, current, w.item.tid, w.time);
    assert i > 0 ==> used[i - 1] in used;
    assert Nexts(stack') == if i == 0 then Nexts(stack)[t := tasks]
      else Nexts(stack)[t := FirstOf(used[i..])][used[i - 1] := t];
    forall x | 0 <= x < |stack| && x in free[1..]
      ensures Nexts(stack')[x] == Nexts(stack)[x]
    {
      assert x in free;
    }
    ChainFrame(Nexts(stack), Nexts(stack'), Nexts(stack)[t], free[1..]);
    RegisterHolds(stack, used, ws, w, i, t, previous, current);
  }

  lemma RegisterHolds(stack: seq<RegisteredTask>, used: seq<nat>, ws: seq<Waiter>, w: Waiter, i: nat, t: nat,
                      previous: int, current: int)
    requires Holds(stack, used, ws) && i <= |ws| && t < |stack| && t !in used
    requires previous == NONE || (0 <= previous < |stack| && previous != t)
    ensures Holds(Registered(stack, t, previous, current, w.item.tid, w.time), used[..i] + [t] + used[i..],
                  ws[..i] + [w] + ws[i..])
  {
    var stack' := Registered(stack, t, previous, current, w.item.tid, w.time);
    var used', ws' := used[..i] + [t] + used[i..], ws[..i] + [w] + ws[i..];
    forall j | 0 <= j < |used'|
      ensures HoldsAt(stack', used', ws', j)
    {
      if j < i {
        assert HoldsAt(stack, used, ws, j) && used[j] in used;
      } else if j > i {
        assert HoldsAt(stack, used, ws, j - 1) && used[j - 1] in used;
      }
    }
  }

  /** The first waiter has been answered; its slot becomes the first free one. */
  lemma ReleaseRepresents(stack: seq<RegisteredTask>, tasks: int, taskSlots: int, used: seq<nat>, free: seq<nat>,
                          ws: seq<Waiter>)
    requires Represents(stack, tasks, taskSlots, used, free, ws) && |ws| > 0
    ensures 0 <= tasks < |stack| && stack[tasks].tid == ws[0].item.tid && stack[tasks].time == ws[0].time
    ensures Represents(stack[tasks := stack[tasks].(next := taskSlots)], stack[tasks].next, tasks,
                       used[1..], [used[0]] + free, ws[1..])
  {
    ChainTail(Nexts(stack), tasks, used);
    SlotsRelease(used, free);
    assert HoldsAt(stack, used, ws, 0);
    var stack' := stack[tasks := stack[tasks].(next := taskSlots)];
    ChainPush(Nexts(stack), taskSlots, free, tasks);
    assert Nexts(stack') == Nexts(stack)[tasks := taskSlots];
    ChainFrame(Nexts(stack), Nexts(stack'), stack[tasks].next, used[1..]);
    forall j | 0 <= j < |used[1..]|
      ensures HoldsAt(stack', used[1..], ws[1..], j)
    {
      var n := j + 1;
      assert HoldsAt(stack, used, ws, n) && used[1..][j] in used[1..];
    }
  }

  /** The replies to the first n + 1 due waiters. */
  lemma OneMoreWoken(ws: seq<Waiter>, n: nat, now: nat)
    requires n < |ws|
    ensures SaidAll(Wakes(ws[..n + 1], now)) == SaidAll(Wakes(ws[..n], now)) + [Reply(ws[n].item.tid, [])]
    ensures ws[n..][1..] == ws[n + 1..]
  {
    assert ws[n..][1..] == ws[n + 1..];
  }

  // ---- the server ----

  class ClockServer {
    const taskStack: array<RegisteredTask>
    var taskSlots: int
    var tasks: int
    var numTick: nat
    // The slots of the waiting tasks and the free ones, in list order.
    ghost var used: seq<nat>
    ghost var free: seq<nat>

    /** The state stands for c. */
    ghost predicate Implements(c: Clock)
      reads this, taskStack
    {
      numTick == c.now && Represents(taskStack[..], tasks, taskSlots, used, free, c.pending)
    }

    /** The slots in the order in which the initialisation links them. */
    ghost function AllSlots(): (s: seq<nat>)
      ensures |s| == TIMER_SERVER_SIZE && forall i :: 0 <= i < |s| ==> s[i] == i
    {
      seq(TIMER_SERVER_SIZE, i => i)
    }

    constructor ()
      ensures Implements(START) && fresh(taskStack)
    {
      taskStack := new RegisteredTask[TIMER_SERVER_SIZE](_ => RegisteredTask(0, 0, 0));
      taskSlots := 0;
      tasks := NONE;
      numTick := 0;
      used := [];
      new;
      free := AllSlots();
      for i := 0 to TIMER_SERVER_SIZE - 1
        invariant used == [] && free == AllSlots() && tasks == NONE && taskSlots == 0 && numTick == 0
        invariant forall j :: 0 <= j < i ==> taskStack[j].next == j + 1
      {
        taskStack[i] := taskStack[i].(next := i + 1, tid := -1);
      }
      taskStack[TIMER_SERVER_SIZE - 1] := taskStack[TIMER_SERVER_SIZE - 1].(next := NONE, tid := -1);
      forall i | 0 <= i < |free|
        ensures LinkAt(Nexts(taskStack[..]), free, i)
      {
      }
    }

    /** The insertion into the sorted list. There must be a free slot. */
    method Register(tid: int, time: nat, ghost c: Clock, ghost w: Waiter)
      requires Implements(c) && |c.pending| < TIMER_SERVER_SIZE && w.item.tid == tid && w.time == time
      modifies this, taskStack
      ensures Implements(c.(pending := Insert(c.pending, w)))
    {
      ghost var i := 0;
      var current, previous := tasks, NONE;
      ChainInRange(Nexts(taskStack[..]), tasks, used);
      while current != NONE && time > taskStack[current].time
        invariant i <= |used| && current == FirstOf(used[i..]) && previous == (if i == 0 then NONE else used[i - 1])
        invariant forall j :: 0 <= j < i ==> c.pending[j].time < time
        decreases |used| - i
      {
        assert LinkAt(Nexts(taskStack[..]), used, i) && HoldsAt(taskStack[..], used, c.pending, i);
        previous := current;
        current := taskStack[current].next;
        i := i + 1;
      }
      if i < |used| {
        assert HoldsAt(taskStack[..], used, c.pending, i);
      }
      RegisterRepresents(taskStack[..], tasks, taskSlots, used, free, c.pending, w, i);
      ghost var stack' := Registered(taskStack[..], taskSlots, previous, current, tid, time);
      var newTask := taskSlots;
      taskSlots := taskStack[newTask].next;
      if previous != NONE {
        taskStack[previous] := taskStack[previous].(next := newTask);
      } else {
        tasks := newTask;
      }
      taskStack[newTask] := RegisteredTask(tid, time, current);
      used, free := used[..i] + [free[0]] + used[i..], free[1..];
      assert taskStack[..] == stack';
    }

    /** The first waiting task is replied to, and its slot freed. */
    method Release(ghost c: Clock) returns (tid: int)
      requires Implements(c) && |c.pending| > 0
      modifies this, taskStack
      ensures tid == c.pending[0].item.tid && Implements(c.(pending := c.pending[1..]))
    {
      ReleaseRepresents(taskStack[..], tasks, taskSlots, used, free, c.pending);
      tid := taskStack[tasks].tid;
      var unused := tasks;
      tasks := taskStack[tasks].next;
      taskStack[unused] := taskStack[unused].(next := taskSlots);
      taskSlots := unused;
      used, free := used[1..], [used[0]] + free;
    }

    /** The loop condition of the replies. */
    method FirstIsDue(ghost c: Clock) returns (due: bool)
      requires Implements(c)
      ensures due <==> |c.pending| > 0 && c.pending[0].time <= c.now
    {
      if tasks == NONE {
        return false;
      }
      assert HoldsAt(taskStack[..], used, c.pending, 0);
      due := taskStack[tasks].time <= numTick;
    }

    /** Waking all due tasks, first come first. */
    method WakeDue(ghost c: Clock) returns (replies: seq<Reply>)
      requires Implements(c)
      modifies this, taskStack
      ensures Implements(Woken(c))
      ensures replies == SaidAll(Wakes(c.pending[..Due(c.pending, c.now)], c.now))
    {
      replies := [];
      ghost var n, all := 0, Due(c.pending, c.now);
      var due := FirstIsDue(c);
      while due
        invariant n <= all <= |c.pending| && Implements(c.(pending := c.pending[n..])) && (due <==> n < all)
        invariant replies == SaidAll(Wakes(c.pending[..n], c.now))
        decreases all - n
      {
        var tid := Release(c.(pending := c.pending[n..]));
        replies := replies + [Reply(tid, [])];
        OneMoreWoken(c.pending, n, c.now);
        n := n + 1;
        due := FirstIsDue(c.(pending := c.pending[n..]));
      }
    }

    /** One pass of the serve loop: what it replies is what Answers says, and the clock moves on as
        Serve says. */
    method ServeOne(m: Message, ghost c: Clock, ghost id: nat) returns (replies: seq<Reply>)
      requires Implements(c) && (m.Wait? ==> |c.pending| < TIMER_SERVER_SIZE)
      modifies this, taskStack
      ensures Implements(Serve(c, m, id)) && replies == SaidAll(Answers(c, m, id))
    {
      match m {
        case Tick(notifier) =>
          numTick := numTick + 1;
          replies := [Reply(notifier, [])];
        case AskTime(tid) =>
          replies := [Reply(tid, [numTick])];
        case Wait(tid, word) =>
          var time := Deadline(word, numTick);
          Register(tid, time, c, Timed(time, Request(tid, id)));
          replies := [];
      }
      assert replies == SaidAll(Direct(c, m));
      var woken := WakeDue(Noted(c, m, id));
      AllSaid(c, m, id, replies, woken);
      replies := replies + woken;
    }
  }
}
