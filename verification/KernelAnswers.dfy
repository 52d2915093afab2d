/** What a task finds when it goes on after its trap: the answer to every system call, the value of an
    interrupt, and who its parent is. */
module KernelAnswers {
  import opened KernelState
  import opened KernelPlacement
  import opened KernelRuns
  import opened KernelMessages
  import opened MachineWords

  ghost function Joined(ready: seq<seq<nat>>, p: nat, t: nat): seq<seq<nat>>
    requires p < |ready|
  {
    ready[p := ready[p] + [t]]
  }

  /** t is ready again with these words, the last of its queue; nothing else has changed. */
  ghost predicate GoesOn(k1: Kernel, k': Kernel, t: nat, words: Words)
    requires Sizes(k1) && t < |k1.tasks|
  {
    && k'.tasks == k1.tasks[t := k1.tasks[t].(state := Ready, words := words)]
    && k'.ready == Joined(k1.ready, k1.tasks[t].priority, t)
    && k'.mailbox == k1.mailbox && k'.events == k1.events && k'.memory == k1.memory
  }

  /** t has this state; nothing else has changed but what is said of the mailboxes and the events. */
  ghost predicate Stops(k1: Kernel, k': Kernel, t: nat, s: TaskState, mailbox: seq<seq<nat>>, events: seq<int>)
    requires t < |k1.tasks|
  {
    && k'.tasks == k1.tasks[t := k1.tasks[t].(state := s)]
    && k'.ready == k1.ready && k'.mailbox == mailbox && k'.events == events && k'.memory == k1.memory
  }

  /** k1 is the kernel when the task t it has chosen traps, k' the kernel one turn of the loop later. */
  ghost predicate Serves(k: Kernel, u: Turn, latestIdle: int, t: nat, k1: Kernel, k': Kernel)
  {
    && CanTurn(k, u) && u.trap.SystemCall? && t == Schedule(k).running
    && k1 == Trapped(k, u) && k' == Loop(k, u, latestIdle)
  }

  lemma Serving(k: Kernel, u: Turn, latestIdle: int, t: nat, k1: Kernel, k': Kernel)
    requires Serves(k, u, latestIdle, t, k1, k')
    ensures Calling(k1) && t == k1.running && k' == Call(k1, latestIdle) && k1.tasks[t].words == u.words
  {
    UsedRuns(k, u);
  }

  /** When the chosen task traps: it is the first of its queue, and has left it; it runs, with the words
      and the memory it leaves; all else is as it was. */
  lemma AtTrap(k: Kernel, u: Turn, t: int, k1: Kernel)
    requires CanTurn(k, u) && t == Schedule(k).running && k1 == Trapped(k, u)
    ensures Sizes(k) && IsTask(k, t) && k.tasks[t].state == Ready
    ensures var p := k.tasks[t].priority;
            && k.ready[p] != [] && k.ready[p][0] == t
            && k1 == Kernel(k.tasks[t := k.tasks[t].(state := Active, words := u.words)],
                            k.ready[p := k.ready[p][1..]], k.mailbox, k.events, t, u.memory)
  {
    assert ReadyAt(k, {}, FirstReady(k, 0));
    UsedRuns(k, u);
  }

  /** The calls after which the caller simply goes on. MyTid answers the caller's number and MyParentTid
      its parent's, Idle the measurement; Pass answers nothing. */
  lemma PlainAnswers(k: Kernel, u: Turn, latestIdle: int, t: nat, k1: Kernel, k': Kernel)
    requires Serves(k, u, latestIdle, t, k1, k')
    ensures Sizes(k1) && t < |k1.tasks|
    ensures Low(u.words.w0) == SYSCALL_MYTID ==> GoesOn(k1, k', t, u.words.(w0 := t))
    ensures Low(u.words.w0) == SYSCALL_MYPARENTTID ==> GoesOn(k1, k', t, u.words.(w0 := k1.tasks[t].parent))
    ensures Low(u.words.w0) == SYSCALL_PASS ==> GoesOn(k1, k', t, u.words)
    ensures Low(u.words.w0) == SYSCALL_IDLE ==> GoesOn(k1, k', t, u.words.(w0 := latestIdle))
  {
    Serving(k, u, latestIdle, t, k1, k');
    Plain(k1, latestIdle, t, k');
  }

  lemma Plain(k1: Kernel, latestIdle: int, t: nat, k': Kernel)
    requires Calling(k1) && t == k1.running && k' == Call(k1, latestIdle)
    ensures var w := k1.tasks[t].words;
            && (Low(w.w0) == SYSCALL_MYTID ==> GoesOn(k1, k', t, w.(w0 := t)))
            && (Low(w.w0) == SYSCALL_MYPARENTTID ==> GoesOn(k1, k', t, w.(w0 := k1.tasks[t].parent)))
            && (Low(w.w0) == SYSCALL_PASS ==> GoesOn(k1, k', t, w))
            && (Low(w.w0) == SYSCALL_IDLE ==> GoesOn(k1, k', t, w.(w0 := latestIdle)))
  {
    var w := k1.tasks[t].words;
    Answered(k1, t, t);
    Answered(k1, t, k1.tasks[t].parent);
    Answered(k1, t, latestIdle);
  }

  lemma Answered(k1: Kernel, t: nat, v: int)
    requires Sizes(k1) && t < |k1.tasks|
    ensures GoesOn(k1, MakeReady(WithResult(k1, t, v), t), t, k1.tasks[t].words.(w0 := v))
    ensures GoesOn(k1, MakeReady(k1, t), t, k1.tasks[t].words)
  {
  }

  /** Create answers the number of a new task, the next there is: the child of its creator, of the priority
      asked for, ready behind all others of that priority, but before a creator of the same priority. */
  lemma CreateAnswers(k: Kernel, u: Turn, latestIdle: int, t: nat, k1: Kernel, k': Kernel)
    requires Serves(k, u, latestIdle, t, k1, k') && Low(u.words.w0) == SYSCALL_CREATE
    ensures Sizes(k1) && t < |k1.tasks| && 0 <= u.words.w1 < NUM_PRIORITY
    ensures var created := |k1.tasks|;
            && k'.tasks == k1.tasks[t := k1.tasks[t].(state := Ready, words := u.words.(w0 := created))]
                             + [Task(Ready, u.words.w1, t, Words(0, 0, 0, 0))]
            && k'.ready == Joined(Joined(k1.ready, u.words.w1, created), k1.tasks[t].priority, t)
            && k'.mailbox == k1.mailbox + [[]] && k'.events == k1.events && k'.memory == k1.memory
  {
    Serving(k, u, latestIdle, t, k1, k');
    Creates(k1, latestIdle, t, k');
  }

  lemma Creates(k1: Kernel, latestIdle: int, t: nat, k': Kernel)
    requires Calling(k1) && t == k1.running && k' == Call(k1, latestIdle)
    requires Low(k1.tasks[t].words.w0) == SYSCALL_CREATE
    ensures var created := |k1.tasks|; var w := k1.tasks[t].words;
            && k'.tasks == k1.tasks[t := k1.tasks[t].(state := Ready, words := w.(w0 := created))]
                             + [Task(Ready, w.w1, t, Words(0, 0, 0, 0))]
            && k'.ready == Joined(Joined(k1.ready, w.w1, created), k1.tasks[t].priority, t)
            && k'.mailbox == k1.mailbox + [[]] && k'.events == k1.events && k'.memory == k1.memory
  {
  }

  /** The calls after which the caller waits, or is no more. */
  lemma WaitingCalls(k: Kernel, u: Turn, latestIdle: int, t: nat, k1: Kernel, k': Kernel)
    requires Serves(k, u, latestIdle, t, k1, k')
    ensures Sizes(k1) && t < |k1.tasks|
    ensures Low(u.words.w0) == SYSCALL_RECEIVE && k1.mailbox[t] == [] ==>
              Stops(k1, k', t, SendBlock, k1.mailbox, k1.events)
    ensures Low(u.words.w0) == SYSCALL_EXIT ==> Stops(k1, k', t, Zombie, k1.mailbox, k1.events)
    ensures Low(u.words.w0) == SYSCALL_AWAITEVENT ==>
              && 0 <= u.words.w1 < NUM_EVENTS && k1.events[u.words.w1] == NO_TASK
              && Stops(k1, k', t, EventBlock, k1.mailbox, k1.events[u.words.w1 := t])
  {
    Serving(k, u, latestIdle, t, k1, k');
  }

  /** Send answers -2 when there is no such task, or no longer; otherwise the caller waits: in the mailbox
      of a task that does not wait for a message itself. */
  lemma SendAnswers(k: Kernel, u: Turn, latestIdle: int, t: nat, k1: Kernel, k': Kernel)
    requires Serves(k, u, latestIdle, t, k1, k') && Low(u.words.w0) == SYSCALL_SEND
    ensures Sizes(k1) && t < |k1.tasks|
    ensures var r := High(u.words.w0);
            if r >= |k1.tasks| || k1.tasks[r].state == Zombie then
              GoesOn(k1, k', t, u.words.(w0 := -2))
            else
              k1.tasks[r].state != SendBlock ==>
                Stops(k1, k', t, ReceiveBlock, k1.mailbox[r := k1.mailbox[r] + [t]], k1.events)
  {
    Serving(k, u, latestIdle, t, k1, k');
    Answered(k1, t, -2);
  }

  /** Reply goes on at once. It answers -2 when there is no such task, -3 when it does not wait for a reply,
      and 0 otherwise; then the sender is ready, with the number of bytes it has got. */
  lemma ReplyAnswers(k: Kernel, u: Turn, latestIdle: int, t: nat, k1: Kernel, k': Kernel, a: int)
    requires Serves(k, u, latestIdle, t, k1, k') && Low(u.words.w0) == SYSCALL_REPLY
    ensures Sizes(k1) && t < |k1.tasks|
    ensures var s := u.words.w1 % TWO32;
            if s >= |k1.tasks| then GoesOn(k1, k', t, u.words.(w0 := -2))
            else if k1.tasks[s].state != ReplyBlock then GoesOn(k1, k', t, u.words.(w0 := -3))
            else s != t && RepliesTo(k1, k', t, u.words, s, k1.tasks[s].words, a)
  {
    Serving(k, u, latestIdle, t, k1, k');
    Replies(k1, latestIdle, t, k', a);
  }

  /** The byte at a when len bytes have been copied. */
  ghost predicate ByteCopied(m: Memory, m': Memory, from: int, to: int, len: int, a: int)
  {
    m'(a) == if to <= a < to + len then m(CopiedFrom(from, to, a)) else m(a)
  }

  /** t has its reply sent to s: the smaller of the two lengths of bytes is copied. */
  ghost predicate RepliesTo(k1: Kernel, k': Kernel, t: nat, w: Words, s: nat, sent: Words, a: int)
    requires Sizes(k1) && t < |k1.tasks| && s < |k1.tasks|
  {
    && ByteCopied(k1.memory, k'.memory, w.w2, sent.w3, Min(w.w3, Low(sent.w2)), a)
    && k'.tasks == k1.tasks[t := k1.tasks[t].(state := Ready, words := w.(w0 := 0))]
                     [s := k1.tasks[s].(state := Ready, words := sent.(w0 := Min(w.w3, Low(sent.w2))))]
    && k'.ready == Joined(Joined(k1.ready, k1.tasks[s].priority, s), k1.tasks[t].priority, t)
    && k'.mailbox == k1.mailbox && k'.events == k1.events
  }

  lemma Replies(k1: Kernel, latestIdle: int, t: nat, k': Kernel, a: int)
    requires Calling(k1) && t == k1.running && k' == Call(k1, latestIdle)
    requires Low(k1.tasks[t].words.w0) == SYSCALL_REPLY
    ensures var w := k1.tasks[t].words; var s := w.w1 % TWO32;
            if s >= |k1.tasks| then GoesOn(k1, k', t, w.(w0 := -2))
            else if k1.tasks[s].state != ReplyBlock then GoesOn(k1, k', t, w.(w0 := -3))
            else s != t && RepliesTo(k1, k', t, w, s, k1.tasks[s].words, a)
  {
    var w := k1.tasks[t].words;
    var s := w.w1 % TWO32;
    if s < |k1.tasks| {
      CopiedBytes(k1.memory, w.w2, k1.tasks[s].words.w3, Min(w.w3, Low(k1.tasks[s].words.w2)), a);
    }
    Answered(k1, t, -2);
    Answered(k1, t, -3);
  }

  /** A message changes hands: receiver r gets the smaller of the two lengths of bytes, that length and, as a
      word, the number of sender s, and is ready; s waits for the reply. */
  ghost predicate HandsOver(k1: Kernel, k': Kernel, s: nat, r: nat, sent: Words, wanted: Words, a: int)
    requires Sizes(k1) && s < |k1.tasks| && r < |k1.tasks|
  {
    && (wanted.w1 <= a < wanted.w1 + 4 || ByteCopied(k1.memory, k'.memory, sent.w1, wanted.w2,
                                                     Min(High(sent.w2), wanted.w3), a))
    && k'.memory(wanted.w1) == s && k'.memory(wanted.w1 + 1) == 0
    && k'.memory(wanted.w1 + 2) == 0 && k'.memory(wanted.w1 + 3) == 0
    && k'.tasks == k1.tasks[s := k1.tasks[s].(state := ReplyBlock)]
                     [r := k1.tasks[r].(state := Ready, words := wanted.(w0 := Min(High(sent.w2), wanted.w3)))]
    && k'.ready == Joined(k1.ready, k1.tasks[r].priority, r) && k'.events == k1.events
  }

  /** Send to a task that waits for a message. */
  lemma DirectSend(k: Kernel, u: Turn, latestIdle: int, t: nat, k1: Kernel, k': Kernel, a: int)
    requires Serves(k, u, latestIdle, t, k1, k') && Low(u.words.w0) == SYSCALL_SEND
    requires High(u.words.w0) < |k1.tasks| && k1.tasks[High(u.words.w0)].state == SendBlock
    ensures var r := High(u.words.w0);
            Sizes(k1) && t < |k1.tasks| && k'.mailbox == k1.mailbox
            && HandsOver(k1, k', t, r, u.words, k1.tasks[r].words, a)
  {
    Serving(k, u, latestIdle, t, k1, k');
    HandedOver(k1, t, High(u.words.w0), a);
  }

  /** Receive when there is mail: the oldest is taken. */
  lemma ReceiveAnswers(k: Kernel, u: Turn, latestIdle: int, t: nat, k1: Kernel, k': Kernel, a: int)
    requires Serves(k, u, latestIdle, t, k1, k') && Low(u.words.w0) == SYSCALL_RECEIVE
    requires Sizes(k1) && t < |k1.tasks| && k1.mailbox[t] != []
    ensures var s := k1.mailbox[t][0];
            && s < |k1.tasks| && s != t && k'.mailbox == k1.mailbox[t := k1.mailbox[t][1..]]
            && HandsOver(k1, k', s, t, k1.tasks[s].words, u.words, a)
  {
    Serving(k, u, latestIdle, t, k1, k');
    Receives(k1, latestIdle, t, k', a);
  }

  lemma Receives(k1: Kernel, latestIdle: int, t: nat, k': Kernel, a: int)
    requires Calling(k1) && t == k1.running && k' == Call(k1, latestIdle)
    requires Low(k1.tasks[t].words.w0) == SYSCALL_RECEIVE && k1.mailbox[t] != []
    ensures var s := k1.mailbox[t][0];
            && s < |k1.tasks| && s != t && k'.mailbox == k1.mailbox[t := k1.mailbox[t][1..]]
            && HandsOver(k1, k', s, t, k1.tasks[s].words, k1.tasks[t].words, a)
  {
    assert MailAt(k1, {t}, t);
    var k2 := k1.(mailbox := k1.mailbox[t := k1.mailbox[t][1..]]);
    HandedOver(k2, k1.mailbox[t][0], t, a);
    assert k' == HandOver(k2, k1.mailbox[t][0], t);
  }

  /** An interrupt costs the running task its turn, no more; the task that waits for the event, if there is
      one, gets the value and is ready, behind the one interrupted, and waits no longer. */
  lemma Interrupted(k: Kernel, u: Turn, latestIdle: int, t: nat, k1: Kernel, k': Kernel)
    requires CanTurn(k, u) && u.trap.HardwareInterrupt? && t == Schedule(k).running
    requires k1 == Trapped(k, u) && k' == Loop(k, u, latestIdle)
    ensures Sizes(k1) && t < |k1.tasks| && u.trap.event < NUM_EVENTS
    ensures var x := k1.events[u.trap.event];
            if x == NO_TASK then GoesOn(k1, k', t, u.words)
            else
              && IsTask(k1, x) && x != t
              && k'.tasks == k1.tasks[t := k1.tasks[t].(state := Ready)]
                               [x := k1.tasks[x].(state := Ready, words := k1.tasks[x].words.(w0 := u.trap.value))]
              && k'.ready == Joined(Joined(k1.ready, k1.tasks[t].priority, t), k1.tasks[x].priority, x)
              && k'.events == k1.events[u.trap.event := NO_TASK]
              && k'.mailbox == k1.mailbox && k'.memory == k1.memory
  {
    UsedRuns(k, u);
    assert EventAt(k1, {t}, u.trap.event);
  }

  // ---- parents, over every run ----

  /** x is still there, with the same parent and the same priority. */
  ghost predicate KeepsParent(k: Kernel, k': Kernel, x: nat)
  {
    x < |k.tasks| ==>
      x < |k'.tasks| && k'.tasks[x].parent == k.tasks[x].parent && k'.tasks[x].priority == k.tasks[x].priority
  }

  lemma KeptTwice(a: Kernel, b: Kernel, c: Kernel, x: nat)
    requires KeepsParent(a, b, x) && KeepsParent(b, c, x)
    ensures KeepsParent(a, c, x)
  {
  }

  /** Nobody's parent or priority ever changes, and tasks are added only by Create, one at a time. */
  lemma TurnKeepsParents(k: Kernel, u: Turn, latestIdle: int, k': Kernel, x: nat)
    requires CanTurn(k, u) && k' == Loop(k, u, latestIdle)
    ensures |k'.tasks| == |k.tasks| + if u.trap.SystemCall? && Low(u.words.w0) == SYSCALL_CREATE then 1 else 0
    ensures KeepsParent(k, k', x)
  {
    UsedRuns(k, u);
    var k1 := Trapped(k, u);
    if u.trap.SystemCall? {
      CallKeepsParent(k1, latestIdle, k', x);
    }
  }

  lemma SendKeepsParent(k1: Kernel, s: nat, x: nat)
    requires Sizes(k1) && s < |k1.tasks| && High(k1.tasks[s].words.w0) != s
    ensures |Send(k1, s).tasks| == |k1.tasks| && KeepsParent(k1, Send(k1, s), x)
  {
  }

  lemma ReceiveKeepsParent(k1: Kernel, r: nat, x: nat)
    requires Sizes(k1) && r < |k1.tasks| && (|k1.mailbox[r]| > 0 ==> k1.mailbox[r][0] < |k1.tasks|)
    ensures |Receive(k1, r).tasks| == |k1.tasks| && KeepsParent(k1, Receive(k1, r), x)
  {
  }

  lemma CallKeepsParent(k1: Kernel, latestIdle: int, k': Kernel, x: nat)
    requires Calling(k1) && k' == Call(k1, latestIdle)
    ensures |k'.tasks| == |k1.tasks| + if Request(k1) == SYSCALL_CREATE then 1 else 0
    ensures KeepsParent(k1, k', x)
  {
    var t := k1.running;
    if Request(k1) == SYSCALL_CREATE {
      Creates(k1, latestIdle, t, k');
    } else if Request(k1) == SYSCALL_REPLY {
      Replies(k1, latestIdle, t, k', 0);
    } else {
      KindOfCall(k1, latestIdle);
      if Request(k1) == SYSCALL_SEND {
        SendKeepsParent(k1, t, x);
      } else if Request(k1) == SYSCALL_RECEIVE {
        ReceiveKeepsParent(k1, t, x);
      }
    }
  }

  /** The kernel k0 is about to let the task creator create, as step i of a run, the task x. */
  ghost predicate CreatedAt(start: Kernel, turns: seq<Turn>, idles: seq<int>, i: nat, k0: Kernel, log0: Log, x: nat,
                            creator: int, priority: int)
  {
    && i < |turns| == |idles| && Logged(start, turns[..i], idles[..i], k0, log0) && CanTurn(k0, turns[i])
    && turns[i].trap.SystemCall? && Low(turns[i].words.w0) == SYSCALL_CREATE
    && x == |k0.tasks| && creator == Schedule(k0).running && priority == turns[i].words.w1
  }

  lemma CreatedEarlier(start: Kernel, turns: seq<Turn>, idles: seq<int>, n: nat, i: nat, k0: Kernel, log0: Log, x: nat,
                       creator: int, priority: int)
    requires n <= |turns| == |idles| && CreatedAt(start, turns[..n], idles[..n], i, k0, log0, x, creator, priority)
    ensures CreatedAt(start, turns, idles, i, k0, log0, x, creator, priority)
  {
    assert turns[..n][..i] == turns[..i] && idles[..n][..i] == idles[..i] && turns[..n][i] == turns[i];
  }

  lemma CreatedNow(start: Kernel, turns: seq<Turn>, idles: seq<int>, i: nat, k0: Kernel, log0: Log, k: Kernel)
    requires i < |turns| == |idles| && Logged(start, turns[..i], idles[..i], k0, log0) && CanTurn(k0, turns[i])
    requires k == Loop(k0, turns[i], idles[i]) && |k0.tasks| < |k.tasks|
    ensures var x := |k0.tasks|;
            && |k.tasks| == x + 1
            && CreatedAt(start, turns, idles, i, k0, log0, x, k.tasks[x].parent, k.tasks[x].priority)
  {
    var t := Schedule(k0).running;
    TurnKeepsParents(k0, turns[i], idles[i], k, 0);
    AtTrap(k0, turns[i], t, Trapped(k0, turns[i]));
    CreateAnswers(k0, turns[i], idles[i], t, Trapped(k0, turns[i]), k);
  }

  /** The last step of a run. */
  lemma LastStep(start: Kernel, turns: seq<Turn>, idles: seq<int>, k: Kernel, log: Log) returns (k0: Kernel, log0: Log)
    requires Logged(start, turns, idles, k, log) && |turns| > 0
    ensures |idles| == |turns| && CanTurn(k0, turns[|turns| - 1])
    ensures k == Loop(k0, turns[|turns| - 1], idles[|turns| - 1])
    ensures Logged(start, turns[..|turns| - 1], idles[..|turns| - 1], k0, log0)
  {
    var last := |turns| - 1;
    k0, log0 :| && Logged(start, turns[..last], idles[..last], k0, log0) && CanTurn(k0, turns[last])
                && k == Loop(k0, turns[last], idles[last]) && log == Noted(log0, k0, turns[last]);
  }

  /** After every run: the tasks there were at the start have the parents and the priorities they had. */
  lemma {:induction false} ParentsStay(start: Kernel, turns: seq<Turn>, idles: seq<int>, k: Kernel, log: Log, x: nat)
    requires Logged(start, turns, idles, k, log) && x < |start.tasks|
    ensures KeepsParent(start, k, x)
    decreases |turns|
  {
    if |turns| == 0 {
      assert k == start;
    } else {
      var last := |turns| - 1;
      var k0, log0 := LastStep(start, turns, idles, k, log);
      TurnKeepsParents(k0, turns[last], idles[last], k, x);
      ParentsStay(start, turns[..last], idles[..last], k0, log0, x);
      KeptTwice(start, k0, k, x);
    }
  }

  /** After every run: the parent of a task that was not there at the start is the task the Create of
      which has made it, its priority the one asked for. */
  lemma {:induction false} ParentIsCreator(start: Kernel, turns: seq<Turn>, idles: seq<int>, k: Kernel, log: Log,
                                           x: nat)
    returns (i: nat, k0: Kernel, log0: Log)
    requires Logged(start, turns, idles, k, log) && |start.tasks| <= x < |k.tasks|
    ensures CreatedAt(start, turns, idles, i, k0, log0, x, k.tasks[x].parent, k.tasks[x].priority)
    decreases |turns|
  {
    if |turns| == 0 {
      assert false;
    }
    var last := |turns| - 1;
    var k1, log1 := LastStep(start, turns, idles, k, log);
    TurnKeepsParents(k1, turns[last], idles[last], k, x);
    if x < |k1.tasks| {
      i, k0, log0 := ParentIsCreator(start, turns[..last], idles[..last], k1, log1, x);
      CreatedEarlier(start, turns, idles, last, i, k0, log0, x, k.tasks[x].parent, k.tasks[x].priority);
    } else {
      i, k0, log0 := last, k1, log1;
      CreatedNow(start, turns, idles, last, k1, log1, k);
    }
  }

  /** At the start: the idle task and those created before the loop, in order, all without a parent. */
  lemma {:induction false} StartParents(k: Kernel, priorities: seq<nat>, x: nat)
    requires AtRest(k) && IdleReady(k) && |k.tasks| + |priorities| <= NUM_MAX_TASK && k.running == NO_TASK
    requires forall i :: 0 <= i < |priorities| ==> priorities[i] < NUM_PRIORITY
    ensures var k' := WithTasks(k, priorities);
            && |k'.tasks| == |k.tasks| + |priorities| && k'.running == NO_TASK
            && (x < |k.tasks| ==> k'.tasks[x] == k.tasks[x])
            && (|k.tasks| <= x < |k'.tasks| ==>
                  k'.tasks[x].parent == NO_PARENT && k'.tasks[x].priority == priorities[x - |k.tasks|])
    decreases |priorities|
  {
    if |priorities| > 0 {
      CreatePlaced(k, {}, priorities[0]);
      StartParents(CreateTask(k, priorities[0]), priorities[1..], x);
    }
  }

  /** After every run of a kernel that has just been started: the parent of a task is the task the Create of
      which has made it, 0xdeadbeef if it was created before the loop. */
  lemma ParentAfterRun(m: Memory, priorities: seq<nat>, start: Kernel, turns: seq<Turn>, idles: seq<int>, k: Kernel,
                       log: Log, t: nat)
    returns (i: nat, k0: Kernel, log0: Log)
    requires |priorities| < NUM_MAX_TASK && forall i :: 0 <= i < |priorities| ==> priorities[i] < NUM_PRIORITY
    requires start == WithTasks(Booted(m), priorities) && Logged(start, turns, idles, k, log) && t < |k.tasks|
    ensures t <= |priorities| ==> k.tasks[t].parent == 0xdeadbeef
    ensures t > |priorities| ==>
              CreatedAt(start, turns, idles, i, k0, log0, t, k.tasks[t].parent, k.tasks[t].priority)
  {
    StartParents(Booted(m), priorities, t);
    if t > |priorities| {
      i, k0, log0 := ParentIsCreator(start, turns, idles, k, log, t);
    } else {
      ParentsStay(start, turns, idles, k, log, t);
      i, k0, log0 := 0, start, log;
    }
  }

  /** So that is what MyParentTid answers, in every such run. */
  lemma ParentAnswered(m: Memory, priorities: seq<nat>, start: Kernel, turns: seq<Turn>, idles: seq<int>, k: Kernel,
                       log: Log, u: Turn, latestIdle: int, t: nat, k1: Kernel, k': Kernel)
    returns (i: nat, k0: Kernel, log0: Log)
    requires |priorities| < NUM_MAX_TASK && forall i :: 0 <= i < |priorities| ==> priorities[i] < NUM_PRIORITY
    requires start == WithTasks(Booted(m), priorities) && Logged(start, turns, idles, k, log)
    requires Serves(k, u, latestIdle, t, k1, k') && Low(u.words.w0) == SYSCALL_MYPARENTTID
    ensures t < |k'.tasks|
    ensures t <= |priorities| ==> k'.tasks[t].words.w0 == 0xdeadbeef
    ensures t > |priorities| ==>
              CreatedAt(start, turns, idles, i, k0, log0, t, k'.tasks[t].words.w0, k'.tasks[t].priority)
  {
    ParentWord(k, u, latestIdle, t, k1, k');
    i, k0, log0 := ParentAfterRun(m, priorities, start, turns, idles, k, log, t);
  }

  lemma ParentWord(k: Kernel, u: Turn, latestIdle: int, t: nat, k1: Kernel, k': Kernel)
    requires Serves(k, u, latestIdle, t, k1, k') && Low(u.words.w0) == SYSCALL_MYPARENTTID
    ensures t < |k.tasks| == |k'.tasks|
    ensures k'.tasks[t].words.w0 == k.tasks[t].parent && k'.tasks[t].priority == k.tasks[t].priority
  {
    AtTrap(k, u, t, k1);
    PlainAnswers(k, u, latestIdle, t, k1, k');
  }
}
