/** Runs of the kernel: turns of kernel_runloop one after the other, and what holds over all of them. */
module KernelRuns {
  import opened KernelState
  import opened KernelPlacement
  import opened Sequences

  const IDLE_TID: nat := 0

  /** The running task traps. It keeps to what the kernel relies on, and the idle task does nothing
      but be interrupted. */
  ghost predicate TurnOk(k: Kernel, u: Turn)
    requires AtRest(k) && FirstReady(k, 0) < NUM_PRIORITY
  {
    SchedulePlaced(k);
    var k1 := Used(Schedule(k), u);
    match u.trap
    case HardwareInterrupt(e, _) => e < NUM_EVENTS
    case SystemCall => k1.running != IDLE_TID && CallOk(k1)
  }

  lemma UsedRuns(k: Kernel, u: Turn)
    requires AtRest(k) && FirstReady(k, 0) < NUM_PRIORITY
    ensures QueuesHoldTasks(k) && Runs(Used(Schedule(k), u), Schedule(k).running)
    ensures QueuesHoldTasks(Used(Schedule(k), u))
  {
    SchedulePlaced(k);
    var k1 := Schedule(k);
    var t := k1.running;
    var v := k1.tasks[t].(words := u.words);
    Change(k1, {t as nat}, t, v);
    SamePlaces(WithTask(k1, t, v), Used(k1, u), {t as nat});
    QueuesHold(Used(k1, u), {t as nat});
  }

  /** Every system call that keeps to the rules leaves every task in its place. */
  lemma CallPlaced(k: Kernel, t: nat, latestIdle: int)
    requires Runs(k, t) && QueuesHoldTasks(k) && CallOk(k)
    ensures AtRest(Call(k, latestIdle))
  {
    var w := k.tasks[t].words;
    var request := Low(w.w0);
    assert {t} - {t} == {};
    if request == SYSCALL_CREATE {
      CreatePlaced(k, {t}, w.w1);
      ResultPlaced(CreateTask(k, w.w1), {t}, t, |k.tasks|);
      ReadyPlaced(WithResult(CreateTask(k, w.w1), t, |k.tasks|), {t}, t);
    } else if request == SYSCALL_MYTID {
      ResultPlaced(k, {t}, t, t);
      ReadyPlaced(WithResult(k, t, t), {t}, t);
    } else if request == SYSCALL_MYPARENTTID {
      ResultPlaced(k, {t}, t, k.tasks[t].parent);
      ReadyPlaced(WithResult(k, t, k.tasks[t].parent), {t}, t);
    } else if request == SYSCALL_PASS {
      ReadyPlaced(k, {t}, t);
    } else if request == SYSCALL_IDLE {
      ResultPlaced(k, {t}, t, latestIdle);
      ReadyPlaced(WithResult(k, t, latestIdle), {t}, t);
    } else if request == SYSCALL_REPLY {
      ReplyPlaced(k, t);
      ReadyPlaced(Reply(k, t), {t}, t);
    } else if request == SYSCALL_SEND {
      SendPlaced(k, t);
    } else if request == SYSCALL_RECEIVE {
      ReceivePlaced(k, t);
    } else if request == SYSCALL_EXIT {
      ExitPlaced(k, t);
    } else {
      AwaitEventPlaced(k, t);
    }
  }

  /** One turn of the loop in kernel_runloop. */
  ghost function Loop(k: Kernel, u: Turn, latestIdle: int): (k': Kernel)
    requires AtRest(k) && FirstReady(k, 0) < NUM_PRIORITY && TurnOk(k, u)
    ensures AtRest(k')
  {
    UsedRuns(k, u);
    var k1 := Used(Schedule(k), u);
    var t := k1.running;
    match u.trap
    case HardwareInterrupt(e, v) =>
      ReadyPlaced(k1, {t as nat}, t);
      assert {t as nat} - {t as nat} == {};
      InterruptPlaced(MakeReady(k1, t), e, v);
      Interrupt(MakeReady(k1, t), e, v)
    case SystemCall =>
      CallPlaced(k1, t, latestIdle);
      Call(k1, latestIdle)
  }

  // ---- the idle task ----

  /** Task 0 has the lowest priority and could run. */
  ghost predicate IdleReady(k: Kernel)
  {
    |k.tasks| > IDLE_TID && k.tasks[IDLE_TID].state == Ready && k.tasks[IDLE_TID].priority == LOWEST_PRIORITY
  }

  /** With an idle task that never blocks, scheduler_get never comes back empty-handed. */
  lemma SomeoneIsReady(k: Kernel)
    requires AtRest(k) && IdleReady(k)
    ensures FirstReady(k, 0) < NUM_PRIORITY
  {
    assert TaskAt(k, {}, IDLE_TID);
  }

  /** A hand-over leaves the idle task alone. */
  lemma CallSparesIdle(k: Kernel, t: nat, latestIdle: int)
    requires Runs(k, t) && QueuesHoldTasks(k) && CallOk(k) && t != IDLE_TID && IdleReady(k)
    ensures IdleReady(Call(k, latestIdle))
  {
    if |k.mailbox[t]| > 0 {
      assert MailAt(k, {t}, t);
      assert k.tasks[k.mailbox[t][0]].state == ReceiveBlock;
    }
  }

  /** Neither the calls of other tasks nor interrupts keep the idle task from being ready again. */
  lemma IdleStaysReady(k: Kernel, u: Turn, latestIdle: int)
    requires AtRest(k) && IdleReady(k) && FirstReady(k, 0) < NUM_PRIORITY && TurnOk(k, u)
    ensures IdleReady(Loop(k, u, latestIdle))
  {
    UsedRuns(k, u);
    var k1 := Used(Schedule(k), u);
    if u.trap.SystemCall? {
      assert k1.tasks[IDLE_TID] == k.tasks[IDLE_TID];
      CallSparesIdle(k1, k1.running, latestIdle);
    }
  }

  /** Every task is in its place, the idle task could run, and so somebody can. */
  ghost predicate Going(k: Kernel)
  {
    AtRest(k) && IdleReady(k) && FirstReady(k, 0) < NUM_PRIORITY
  }

  /** One turn later, the same holds again. */
  lemma TurnKeepsGoing(k: Kernel, u: Turn, latestIdle: int, k': Kernel)
    requires Going(k) && TurnOk(k, u) && k' == Loop(k, u, latestIdle)
    ensures Going(k')
  {
    IdleStaysReady(k, u, latestIdle);
    SomeoneIsReady(k');
  }

  // ---- runs ----

  /** The kernel as kernel_init leaves it: the idle task has been created, nothing has run. */
  ghost function Booted(m: Memory): (k: Kernel)
    ensures AtRest(k) && IdleReady(k) && |k.tasks| == 1
  {
    var none := Kernel([], seq(NUM_PRIORITY, _ => []), [], seq(NUM_EVENTS, _ => NO_TASK), NO_TASK, m);
    assert AtRest(none);
    CreatePlaced(none, {}, LOWEST_PRIORITY);
    CreateTask(none, LOWEST_PRIORITY)
  }

  /** Further tasks created before the loop starts. */
  ghost function WithTasks(k: Kernel, priorities: seq<nat>): (k': Kernel)
    requires AtRest(k) && IdleReady(k) && |k.tasks| + |priorities| <= NUM_MAX_TASK
    requires forall i :: 0 <= i < |priorities| ==> priorities[i] < NUM_PRIORITY
    ensures AtRest(k') && IdleReady(k')
    decreases |priorities|
  {
    if |priorities| == 0 then k
    else
      CreatePlaced(k, {}, priorities[0]);
      WithTasks(CreateTask(k, priorities[0]), priorities[1..])
  }

  /** What being in place means, task by task. */
  lemma OnePlaceEach(k: Kernel, t: nat)
    requires AtRest(k) && t < |k.tasks|
    ensures k.tasks[t].state == Ready <==> t in k.ready[k.tasks[t].priority]
    ensures forall p :: 0 <= p < NUM_PRIORITY && t in k.ready[p] ==> p == k.tasks[t].priority && Distinct(k.ready[p])
    ensures k.tasks[t].state == ReceiveBlock <==> Wanted(k, t) < |k.tasks| && t in k.mailbox[Wanted(k, t)]
    ensures forall r :: 0 <= r < |k.tasks| && t in k.mailbox[r] ==> r == Wanted(k, t) && Distinct(k.mailbox[r])
    ensures k.tasks[t].state == EventBlock <==>
              0 <= k.tasks[t].words.w1 < NUM_EVENTS && k.events[k.tasks[t].words.w1] == t
    ensures forall e :: 0 <= e < NUM_EVENTS && k.events[e] == t ==> e == k.tasks[t].words.w1
    ensures k.tasks[t].state == SendBlock ==> k.mailbox[t] == []
    ensures k.tasks[t].state != Active
  {
    assert TaskAt(k, {}, t);
    forall p | 0 <= p < NUM_PRIORITY && t in k.ready[p]
      ensures p == k.tasks[t].priority && Distinct(k.ready[p]) && k.tasks[t].state == Ready
    {
      assert ReadyAt(k, {}, p);
      var i :| 0 <= i < |k.ready[p]| && k.ready[p][i] == t;
    }
    forall r | 0 <= r < |k.tasks| && t in k.mailbox[r]
      ensures r == Wanted(k, t) && Distinct(k.mailbox[r]) && k.tasks[t].state == ReceiveBlock
    {
      assert MailAt(k, {}, r);
      var i :| 0 <= i < |k.mailbox[r]| && k.mailbox[r][i] == t;
    }
    forall e | 0 <= e < NUM_EVENTS && k.events[e] == t
      ensures e == k.tasks[t].words.w1 && k.tasks[t].state == EventBlock
    {
      assert EventAt(k, {}, e);
    }
  }

  /** The task chosen to run is the oldest in its queue, and no ready task has a better priority. */
  lemma BestIsChosen(k: Kernel, x: nat)
    requires AtRest(k) && FirstReady(k, 0) < NUM_PRIORITY && x < |k.tasks| && k.tasks[x].state == Ready
    ensures QueuesHoldTasks(k)
    ensures var t := Schedule(k).running;
            && k.tasks[t].state == Ready && k.tasks[t].priority <= k.tasks[x].priority
            && t in k.ready[k.tasks[t].priority] && k.ready[k.tasks[t].priority][0] == t
  {
    SchedulePlaced(k);
    assert TaskAt(k, {}, x) && ReadyAt(k, {}, FirstReady(k, 0));
  }
}
