/** The microkernel as it runs: kernel/kernel.c, Scheduler.c and TaskQueue.c on linked descriptors. Each
    operation does to the structures what the function of the same name in KernelState says. */
module KernelInPlace {
  import opened KernelState
  import opened KernelPlacement
  import opened KernelRuns
  import opened KernelLinks
  import opened ReadyMask
  import opened LinkedLists
  import opened MachineWords

  class Microkernel {
    const tds: array<TaskDescriptor>
    const taskReadyQueues: array<TaskQueue>
    const eventWaitingTask: array<int>
    var queueFullMask: bv32
    var currentRunningTask: int
    var tidCounter: nat
    var memory: Memory

    /** The state stands for k. */
    ghost predicate Implements(k: Kernel)
      reads this, tds, taskReadyQueues, eventWaitingTask
    {
      && LinksHold(k, tds[..], taskReadyQueues[..]) && MaskHolds(k, queueFullMask)
      && k.events == eventWaitingTask[..] && k.running == currentRunningTask && k.memory == memory
      && tidCounter == |k.tasks|
    }

    /** The descriptor of a task that is being served is not linked to anything. */
    ghost predicate Unlinked(t: nat)
      requires t < tds.Length
      reads tds
    {
      tds[t].next == NO_TASK
    }

    lemma TaskIs(k: Kernel, t: nat)
      requires Implements(k) && t < |k.tasks|
      ensures t < tds.Length && View(tds[t]) == k.tasks[t]
    {
      assert TaskHolds(k, tds[..], t);
    }

    // ---- descriptors ----

    method SetState(t: nat, s: TaskState, ghost k: Kernel)
      requires Implements(k) && t < |k.tasks|
      modifies tds
      ensures Implements(WithState(k, t, s)) && tds[..] == old(tds[..])[t := old(tds[t]).(state := s)]
    {
      TaskIs(k, t);
      TaskChanged(k, tds[..], taskReadyQueues[..], t, tds[t].(state := s));
      MaskSame(k, queueFullMask, WithState(k, t, s));
      tds[t] := tds[t].(state := s);
    }

    method SetResult(t: nat, v: int, ghost k: Kernel)
      requires Implements(k) && t < |k.tasks|
      modifies tds
      ensures Implements(WithResult(k, t, v)) && forall x :: 0 <= x < tds.Length ==> tds[x].next == old(tds[x].next)
    {
      TaskIs(k, t);
      var td := tds[t].(words := tds[t].words.(w0 := v));
      TaskChanged(k, tds[..], taskReadyQueues[..], t, td);
      MaskSame(k, queueFullMask, WithResult(k, t, v));
      tds[t] := td;
    }

    // ---- TaskQueue.c ----

    /** queueFullMask |= 1 << priority */
    method MarkFull(p: nat, ghost k: Kernel, ghost k': Kernel)
      requires Sizes(k) && MaskHolds(k, queueFullMask) && p < NUM_PRIORITY
      requires |k'.ready| == |k.ready| && k'.ready[p] != []
               && (forall q :: 0 <= q < |k.ready| && q != p ==> k'.ready[q] == k.ready[q])
      modifies `queueFullMask
      ensures MaskHolds(k', queueFullMask)
    {
      MaskAppended(k, queueFullMask, p, Bit(p), k');
      queueFullMask := queueFullMask | Bit(p);
    }

    /** queueFullMask &= ~(1 << priority) */
    method MarkEmpty(p: nat, ghost k: Kernel, ghost k': Kernel)
      requires Sizes(k) && MaskHolds(k, queueFullMask) && p < NUM_PRIORITY
      requires |k'.ready| == |k.ready| && k'.ready[p] == []
               && (forall q :: 0 <= q < |k.ready| && q != p ==> k'.ready[q] == k.ready[q])
      modifies `queueFullMask
      ensures MaskHolds(k', queueFullMask)
    {
      MaskTaken(k, queueFullMask, p, Bit(p), k');
      queueFullMask := queueFullMask & !Bit(p);
    }

    /** The queue the mask leads to. */
    method FirstQueue(ghost k: Kernel) returns (i: nat)
      requires Sizes(k) && MaskHolds(k, queueFullMask)
      ensures i < NUM_PRIORITY
      ensures if FirstReady(k, 0) < NUM_PRIORITY then i == FirstReady(k, 0) else k.ready[i] == []
    {
      MaskFindsFirst(k, queueFullMask);
      i := Position(queueFullMask);
    }

    /** append_task */
    method AppendTask(t: nat, ghost k: Kernel, ghost out: set<nat>)
      requires Implements(k) && Placed(k, out) && t in out
      modifies tds, taskReadyQueues, `queueFullMask
      ensures var p := k.tasks[t].priority; Implements(k.(ready := k.ready[p := k.ready[p] + [t]]))
    {
      TaskIs(k, t);
      ReadyAppended(k, out, tds[..], taskReadyQueues[..], t);
      var priority := tds[t].priority;
      ghost var k' := k.(ready := k.ready[priority := k.ready[priority] + [t]]);
      ghost var tds', queues := Appended(tds[..], taskReadyQueues[priority], t), taskReadyQueues[..];
      var queue := taskReadyQueues[priority];
      tds[t] := tds[t].(next := NO_TASK);
      MarkFull(priority, k, k');
      if queue.begin == NO_TASK {
        taskReadyQueues[priority] := TaskQueue(t, t);
      } else {
        tds[queue.end] := tds[queue.end].(next := t);
        taskReadyQueues[priority] := TaskQueue(queue.begin, t);
      }
      assert tds[..] == tds';
      assert taskReadyQueues[..] == queues[priority := TaskQueue(if queue.begin == NO_TASK then t else queue.begin, t)];
    }

    /** next_ready_task: the oldest task of the best priority, by way of the mask. */
    method NextReadyTask(ghost k: Kernel) returns (t: int)
      requires Implements(k) && AtRest(k)
      modifies tds, taskReadyQueues, `queueFullMask
      ensures var p := FirstReady(k, 0);
              if p == NUM_PRIORITY then t == NO_TASK && Implements(k)
              else t == k.ready[p][0] && t < tds.Length && Unlinked(t)
                   && Implements(k.(ready := k.ready[p := k.ready[p][1..]]))
    {
      var i := FirstQueue(k);
      assert QueueHolds(k, tds[..], taskReadyQueues[..], i);
      if taskReadyQueues[i].begin == NO_TASK {
        return NO_TASK;
      }
      t := TakeFirst(i, k);
    }

    /** Taking the first task of queue i. */
    method TakeFirst(i: nat, ghost k: Kernel) returns (t: nat)
      requires Implements(k) && AtRest(k) && i < NUM_PRIORITY && k.ready[i] != []
      modifies tds, taskReadyQueues, `queueFullMask
      ensures t == k.ready[i][0] && t < tds.Length && Implements(k.(ready := k.ready[i := k.ready[i][1..]]))
      ensures Unlinked(t)
    {
      ghost var k', tds', queues := k.(ready := k.ready[i := k.ready[i][1..]]), tds[..], taskReadyQueues[..];
      ReadyTaken(k, tds[..], taskReadyQueues[..], i);
      var queue := taskReadyQueues[i];
      t := queue.begin;
      var next := tds[t].next;
      if next == NO_TASK {
        taskReadyQueues[i] := TaskQueue(next, NO_TASK);
        MarkEmpty(i, k, k');
      } else {
        taskReadyQueues[i] := TaskQueue(next, queue.end);
        MaskSame(k, queueFullMask, k');
      }
      tds[t] := tds[t].(next := NO_TASK);
      assert tds[..] == tds'[t := tds'[t].(next := NO_TASK)];
      assert taskReadyQueues[..] == queues[i := TaskQueue(next, if next == NO_TASK then NO_TASK else queue.end)];
    }

    // ---- Scheduler.c, memory.c ----

    /** state = READY; scheduler_append */
    method MakeTaskReady(t: nat, ghost k: Kernel, ghost out: set<nat>)
      requires Implements(k) && Placed(k, out) && t in out
      modifies tds, taskReadyQueues, `queueFullMask
      ensures Implements(MakeReady(k, t))
    {
      Change(k, out, t, k.tasks[t].(state := Ready));
      SetState(t, Ready, k);
      AppendTask(t, WithState(k, t, Ready), out);
    }

    /** scheduler_set_running */
    method SetRunning(t: nat, ghost k: Kernel)
      requires Implements(k) && t < |k.tasks|
      modifies tds, `currentRunningTask
      ensures Implements(WithState(k, t, Active).(running := t))
      ensures forall x :: 0 <= x < tds.Length ==> tds[x].next == old(tds[x].next)
    {
      SetState(t, Active, k);
      currentRunningTask := t;
      ghost var k' := WithState(k, t, Active).(running := t);
      SameLinks(WithState(k, t, Active), k', tds[..], taskReadyQueues[..]);
      MaskSame(k, queueFullMask, k');
    }

    /** memcpy_no_overlap_asm */
    method CopyLoop(from: int, to: int, len: int)
      modifies `memory
      ensures memory == Copied(old(memory), from, to, len)
    {
      var i := 0;
      while i < len
        invariant i <= len || i == 0
        invariant 0 <= i && memory == Copied(old(memory), from, to, i)
      {
        memory := WithByte(memory, to + i, memory(from + i));
        i := i + 1;
      }
    }

    /** It touches none of the kernel's structures. */
    method CopyBytes(from: int, to: int, len: int, ghost k: Kernel)
      requires Implements(k)
      modifies `memory
      ensures Implements(k.(memory := Copied(k.memory, from, to, len)))
    {
      CopyLoop(from, to, len);
      SameLinks(k, k.(memory := memory), tds[..], taskReadyQueues[..]);
      MaskSame(k, queueFullMask, k.(memory := memory));
    }

    method StoreWord(at: int, v: int, ghost k: Kernel)
      requires Implements(k)
      modifies `memory
      ensures Implements(k.(memory := WithWord(k.memory, at, v)))
    {
      memory := WithWord(memory, at, v);
      SameLinks(k, k.(memory := memory), tds[..], taskReadyQueues[..]);
      MaskSame(k, queueFullMask, k.(memory := memory));
    }

    // ---- messages ----

    /** The hand-over shared by kernel_send and kernel_receive. */
    method Hand(s: nat, r: nat, ghost k: Kernel, ghost out: set<nat>)
      requires Implements(k) && Placed(k, out) && s in out && r in out && s != r
      modifies tds, taskReadyQueues, `queueFullMask, `memory
      ensures Implements(HandOver(k, s, r))
    {
      TaskIs(k, s);
      TaskIs(k, r);
      var sent, wanted := tds[s].words, tds[r].words;
      var len := Min(High(sent.w2), wanted.w3);
      CopyBytes(sent.w1, wanted.w2, len, k);
      ghost var k1 := k.(memory := Copied(k.memory, sent.w1, wanted.w2, len));
      StoreWord(wanted.w1, s, k1);
      ghost var k2 := k1.(memory := WithWord(k1.memory, wanted.w1, s));
      SamePlaces(k, k2, out);
      SetResult(r, len, k2);
      ghost var k3 := WithResult(k2, r, len);
      ResultPlaced(k2, out, r, len);
      MakeTaskReady(r, k3, out);
      SetState(s, ReplyBlock, MakeReady(k3, r));
    }

    /** Walking to the end of a receiver's queue. */
    method LastSender(r: nat, ghost k: Kernel) returns (last: int)
      requires Implements(k) && r < |k.tasks|
      ensures last == LastOf(k.mailbox[r])
    {
      ghost var q, i := k.mailbox[r], 0;
      assert MailHolds(k, tds[..], r);
      last := NO_TASK;
      var current := tds[r].sendQ;
      while current != NO_TASK
        invariant 0 <= i <= |q| && current == FirstOf(q[i..]) && last == LastOf(q[..i])
        decreases |q| - i
      {
        assert LinkAt(Nexts(tds[..]), q, i);
        last := current;
        current := tds[current].next;
        i := i + 1;
      }
      assert q[..i] == q;
    }

    /** The sender joins the receiver's queue. */
    method JoinQueue(s: nat, r: nat, ghost k: Kernel, ghost out: set<nat>)
      requires Implements(k) && Placed(k, out) && r < |k.tasks| && s in out && s < tds.Length && Unlinked(s)
      modifies tds
      ensures Implements(k.(mailbox := k.mailbox[r := k.mailbox[r] + [s]]))
    {
      MailJoined(k, out, tds[..], taskReadyQueues[..], r, s);
      var last := LastSender(r, k);
      ghost var k', tds' := k.(mailbox := k.mailbox[r := k.mailbox[r] + [s]]), Joined(tds[..], last, r, s);
      if last == NO_TASK {
        tds[r] := tds[r].(sendQ := s);
      } else {
        tds[last] := tds[last].(next := s);
      }
      assert tds[..] == tds';
      MaskSame(k, queueFullMask, k');
    }

    /** kernel_send by the running task s */
    method KernelSend(s: nat, ghost k: Kernel)
      requires Implements(k) && Runs(k, s) && s < tds.Length && Unlinked(s) && Wanted(k, s) != s
      modifies tds, taskReadyQueues, `queueFullMask, `memory
      ensures Implements(Send(k, s))
    {
      TaskIs(k, s);
      var r := High(tds[s].words.w0);
      if r < tidCounter {
        TaskIs(k, r);
      }
      if r >= tidCounter || tds[r].state == Zombie {
        ResultPlaced(k, {s}, s, -2);
        SetResult(s, -2, k);
        MakeTaskReady(s, WithResult(k, s, -2), {s});
      } else if tds[r].state == SendBlock {
        Unsettle(k, {s}, r);
        Hand(s, r, k, {s} + {r});
      } else {
        JoinQueue(s, r, k, {s});
        SetState(s, ReceiveBlock, k.(mailbox := k.mailbox[r := k.mailbox[r] + [s]]));
      }
    }

    /** kernel_receive by the running task r */
    method KernelReceive(r: nat, ghost k: Kernel)
      requires Implements(k) && Runs(k, r) && (|k.mailbox[r]| > 0 ==> k.mailbox[r][0] < |k.tasks|)
      modifies tds, taskReadyQueues, `queueFullMask, `memory
      ensures Implements(Receive(k, r))
    {
      TaskIs(k, r);
      assert MailHolds(k, tds[..], r);
      if tds[r].sendQ != NO_TASK {
        var s := LeaveQueue(r, k, {r});
        ghost var k1 := k.(mailbox := k.mailbox[r := k.mailbox[r][1..]]);
        TakenFromMailbox(k, {r}, r, k1);
        Hand(s, r, k1, {r} + {s});
      } else {
        SetState(r, SendBlock, k);
      }
    }

    /** receiver->sendQ = receiver->sendQ->next: the first sender is taken; its own link stays. */
    method LeaveQueue(r: nat, ghost k: Kernel, ghost out: set<nat>) returns (s: nat)
      requires Implements(k) && Placed(k, out) && r < |k.tasks| && k.mailbox[r] != []
      modifies tds
      ensures s == k.mailbox[r][0] && Implements(k.(mailbox := k.mailbox[r := k.mailbox[r][1..]]))
    {
      MailTaken(k, out, tds[..], taskReadyQueues[..], r);
      s := tds[r].sendQ;
      tds[r] := tds[r].(sendQ := tds[s].next);
      MaskSame(k, queueFullMask, k.(mailbox := k.mailbox[r := k.mailbox[r][1..]]));
    }

    /** kernel_reply by the running task t */
    method KernelReply(t: nat, ghost k: Kernel)
      requires Implements(k) && Runs(k, t)
      modifies tds, taskReadyQueues, `queueFullMask, `memory
      ensures Implements(Reply(k, t))
    {
      TaskIs(k, t);
      var w := tds[t].words;
      var s := w.w1 % TWO32;
      if s >= tidCounter {
        SetResult(t, -2, k);
        return;
      }
      TaskIs(k, s);
      if tds[s].state != ReplyBlock {
        SetResult(t, -3, k);
        return;
      }
      var asked := tds[s].words;
      var len := Min(w.w3, Low(asked.w2));
      CopyBytes(w.w2, asked.w3, len, k);
      ghost var k1 := k.(memory := Copied(k.memory, w.w2, asked.w3, len));
      SamePlaces(k, k1, {t});
      Unsettle(k1, {t}, s);
      SetResult(s, len, k1);
      ResultPlaced(k1, {t} + {s}, s, len);
      MakeTaskReady(s, WithResult(k1, s, len), {t} + {s});
      SetResult(t, 0, MakeReady(WithResult(k1, s, len), s));
    }

    // ---- events and tasks ----

    method SetEvent(e: nat, t: int, ghost k: Kernel)
      requires Implements(k) && e < NUM_EVENTS
      modifies eventWaitingTask
      ensures Implements(k.(events := k.events[e := t]))
    {
      eventWaitingTask[e] := t;
      SameLinks(k, k.(events := k.events[e := t]), tds[..], taskReadyQueues[..]);
      MaskSame(k, queueFullMask, k.(events := k.events[e := t]));
    }

    /** kernel_awaitevent by the running task t, errors included */
    method KernelAwaitEvent(t: nat, ghost k: Kernel)
      requires Implements(k) && t < |k.tasks|
      modifies tds, eventWaitingTask
      ensures Implements(AwaitEvent(k, t))
    {
      TaskIs(k, t);
      var e := tds[t].words.w1;
      if e >= NUM_EVENTS || e < 0 {
        SetResult(t, -1, k);
      } else if eventWaitingTask[e] != NO_TASK {
        SetResult(t, -4, k);
      } else {
        SetState(t, EventBlock, k);
        SetEvent(e, t, WithState(k, t, EventBlock));
      }
    }

    /** kernel_handle_interrupt: whoever waits for the event is woken with its value. */
    method HandleInterrupt(e: nat, value: int, ghost k: Kernel)
      requires Implements(k) && AtRest(k) && e < NUM_EVENTS && QueuesHoldTasks(k)
      modifies tds, taskReadyQueues, eventWaitingTask, `queueFullMask
      ensures Implements(Interrupt(k, e, value))
    {
      var subscriber := eventWaitingTask[e];
      SetEvent(e, NO_TASK, k);
      ghost var k1 := k.(events := k.events[e := NO_TASK]);
      if subscriber != NO_TASK {
        TakenFromEvent(k, {}, e, k1);
        ResultPlaced(k1, {} + {subscriber}, subscriber, value);
        SetResult(subscriber, value, k1);
        MakeTaskReady(subscriber, WithResult(k1, subscriber, value), {} + {subscriber});
      }
    }

    /** kernel_createtask */
    method KernelCreateTask(priority: nat, ghost k: Kernel, ghost out: set<nat>) returns (t: nat)
      requires Implements(k) && Placed(k, out) && priority < NUM_PRIORITY && tidCounter < NUM_MAX_TASK
      modifies tds, taskReadyQueues, `queueFullMask, `tidCounter
      ensures t == |k.tasks| && Implements(CreateTask(k, priority))
    {
      t := tidCounter;
      var parent := if currentRunningTask == NO_TASK then NO_PARENT else currentRunningTask;
      var td := TaskDescriptor(Ready, priority, parent, Words(0, 0, 0, 0), NO_TASK, NO_TASK);
      ghost var k1 := k.(tasks := k.tasks + [View(td)], mailbox := k.mailbox + [[]]);
      TaskAdded(k, out, tds[..], taskReadyQueues[..], td);
      NewTask(k, out, View(td), k1);
      MaskSame(k, queueFullMask, k1);
      tds[t] := td;
      tidCounter := tidCounter + 1;
      AppendTask(t, k1, out + {t});
      assert k1.tasks[t := k1.tasks[t].(state := Ready)] == k1.tasks;
    }

    // ---- kernel_init and kernel_runloop ----

    /** kernel_init: empty structures, then the idle task. */
    constructor (m: Memory)
      ensures Implements(Booted(m))
      ensures fresh(tds) && fresh(taskReadyQueues) && fresh(eventWaitingTask)
    {
      tds := new TaskDescriptor[NUM_MAX_TASK](_ => TaskDescriptor(Zombie, 0, NO_PARENT, Words(0, 0, 0, 0), NO_TASK,
                                                                  NO_TASK));
      taskReadyQueues := new TaskQueue[NUM_PRIORITY](_ => TaskQueue(NO_TASK, NO_TASK));
      eventWaitingTask := new int[NUM_EVENTS](_ => NO_TASK);
      queueFullMask := 0;
      currentRunningTask := NO_TASK;
      tidCounter := 0;
      memory := m;
      new;
      ghost var none := Kernel([], seq(NUM_PRIORITY, _ => []), [], seq(NUM_EVENTS, _ => NO_TASK), NO_TASK, m);
      Nothing(none, tds[..], taskReadyQueues[..]);
      assert none.events == eventWaitingTask[..];
      var idleTid := KernelCreateTask(LOWEST_PRIORITY, none, {});
    }

    /** The system call of the running task t. */
    method Dispatch(t: nat, latestIdle: int, ghost k: Kernel)
      requires Implements(k) && Runs(k, t) && QueuesHoldTasks(k) && CallOk(k) && t < tds.Length && Unlinked(t)
      modifies tds, taskReadyQueues, eventWaitingTask, `queueFullMask, `memory, `tidCounter
      ensures Implements(Call(k, latestIdle))
    {
      TaskIs(k, t);
      var w := tds[t].words;
      var request := Low(w.w0);
      if request == SYSCALL_CREATE {
        CreatePlaced(k, {t}, w.w1);
        var id := KernelCreateTask(w.w1, k, {t});
        Finish(t, id, CreateTask(k, w.w1));
      } else if request == SYSCALL_MYTID {
        Finish(t, currentRunningTask, k);
      } else if request == SYSCALL_MYPARENTTID {
        Finish(t, tds[t].parent, k);
      } else if request == SYSCALL_PASS {
        MakeTaskReady(t, k, {t});
      } else if request == SYSCALL_IDLE {
        Finish(t, latestIdle, k);
      } else if request == SYSCALL_REPLY {
        ReplyPlaced(k, t);
        KernelReply(t, k);
        MakeTaskReady(t, Reply(k, t), {t});
      } else if request == SYSCALL_SEND {
        KernelSend(t, k);
      } else if request == SYSCALL_RECEIVE {
        KernelReceive(t, k);
      } else if request == SYSCALL_EXIT {
        SetState(t, Zombie, k);
      } else {
        KernelAwaitEvent(t, k);
      }
    }

    /** The task gets its result and is moved to its ready queue. */
    method Finish(t: nat, result: int, ghost k: Kernel)
      requires Implements(k) && Placed(k, {t}) && t < |k.tasks|
      modifies tds, taskReadyQueues, `queueFullMask
      ensures Implements(MakeReady(WithResult(k, t, result), t))
    {
      ResultPlaced(k, {t}, t, result);
      SetResult(t, result, k);
      MakeTaskReady(t, WithResult(k, t, result), {t});
    }

    /** What the chosen task does until it traps. */
    method UserMode(t: nat, u: Turn, ghost k: Kernel)
      requires Implements(k) && t == k.running && t < |k.tasks|
      modifies tds, `memory
      ensures Implements(Used(k, u)) && forall x :: 0 <= x < tds.Length ==> tds[x].next == old(tds[x].next)
    {
      TaskIs(k, t);
      ghost var v := k.tasks[t].(words := u.words);
      TaskChanged(k, tds[..], taskReadyQueues[..], t, tds[t].(words := u.words));
      tds[t] := tds[t].(words := u.words);
      memory := u.memory;
      SameLinks(WithTask(k, t, v), Used(k, u), tds[..], taskReadyQueues[..]);
      MaskSame(k, queueFullMask, Used(k, u));
    }

    /** One turn of kernel_runloop. The loop ends when no task is ready. */
    method RunTurn(u: Turn, latestIdle: int, ghost k: Kernel) returns (more: bool)
      requires Implements(k) && AtRest(k) && (FirstReady(k, 0) < NUM_PRIORITY ==> TurnOk(k, u))
      modifies this, tds, taskReadyQueues, eventWaitingTask
      ensures more <==> FirstReady(k, 0) < NUM_PRIORITY
      ensures if more then Implements(Loop(k, u, latestIdle)) else Implements(k)
    {
      var t := NextReadyTask(k);
      if t == NO_TASK {
        return false;
      }
      UsedRuns(k, u);
      ghost var p := FirstReady(k, 0);
      SetRunning(t, k.(ready := k.ready[p := k.ready[p][1..]]));
      UserMode(t, u, Schedule(k));
      ghost var k1 := Used(Schedule(k), u);
      match u.trap {
        case HardwareInterrupt(e, v) =>
          ReadyPlaced(k1, {t as nat}, t);
          MakeTaskReady(t, k1, {t as nat});
          assert {t as nat} - {t as nat} == {};
          QueuesHold(MakeReady(k1, t), {});
          HandleInterrupt(e, v, MakeReady(k1, t));
        case SystemCall =>
          Dispatch(t, latestIdle, k1);
      }
      more := true;
    }
  }

  lemma Nothing(k: Kernel, tds: seq<TaskDescriptor>, queues: seq<TaskQueue>)
    requires k.tasks == [] && k.mailbox == [] && k.ready == seq(NUM_PRIORITY, _ => []) && |k.events| == NUM_EVENTS
    requires |tds| == NUM_MAX_TASK && queues == seq(NUM_PRIORITY, _ => TaskQueue(NO_TASK, NO_TASK))
    requires forall e :: 0 <= e < NUM_EVENTS ==> k.events[e] == NO_TASK
    ensures LinksHold(k, tds, queues) && MaskHolds(k, 0) && AtRest(k)
  {
    forall p | 0 <= p < 32
      ensures BitHolds(k, 0, p)
    {
      NoneSet(p);
    }
  }
}
