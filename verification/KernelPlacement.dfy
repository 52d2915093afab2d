/** Where every task is, over every run of the kernel. */
module KernelPlacement {
  import opened KernelState
  import opened LinkedLists
  import opened Sequences
  import opened MachineWords

  /** The task a blocked sender wants: the upper half of the word it saved when it called Send. */
  function Wanted(k: Kernel, t: nat): nat
    requires t < |k.tasks|
  {
    High(k.tasks[t].words.w0)
  }

  /** t is a task on the queue its state calls for; the tasks in out are on none. */
  ghost predicate TaskAt(k: Kernel, out: set<nat>, t: nat)
    requires Sizes(k) && t < |k.tasks|
  {
    var v := k.tasks[t];
    t in out ||
    match v.state
    case Active => false
    case Ready => t in k.ready[v.priority]
    case ReceiveBlock => Wanted(k, t) < |k.tasks| && t in k.mailbox[Wanted(k, t)]
    case EventBlock => 0 <= v.words.w1 < NUM_EVENTS && k.events[v.words.w1] == t
    case SendBlock => k.mailbox[t] == []
    case _ => true
  }

  /** The entries of ready queue p: each is once there, and is READY with that priority. */
  ghost predicate ReadyAt(k: Kernel, out: set<nat>, p: nat)
    requires Sizes(k) && p < NUM_PRIORITY
  {
    var q := k.ready[p];
    Distinct(q) && forall i :: 0 <= i < |q| ==>
      q[i] < |k.tasks| && q[i] !in out && k.tasks[q[i]].state == Ready && k.tasks[q[i]].priority == p
  }

  /** The senders waiting for r: each is once there, and blocked sending to r. */
  ghost predicate MailAt(k: Kernel, out: set<nat>, r: nat)
    requires Sizes(k) && r < |k.tasks|
  {
    var q := k.mailbox[r];
    Distinct(q) && forall i :: 0 <= i < |q| ==>
      q[i] < |k.tasks| && q[i] !in out && k.tasks[q[i]].state == ReceiveBlock && Wanted(k, q[i]) == r
  }

  ghost predicate EventAt(k: Kernel, out: set<nat>, e: nat)
    requires Sizes(k) && e < NUM_EVENTS
  {
    var t := k.events[e];
    t == NO_TASK || (IsTask(k, t) && t !in out && k.tasks[t].state == EventBlock && k.tasks[t].words.w1 == e)
  }

  /** Every task but those in out is in its place, and the queues hold nobody else. */
  ghost predicate Placed(k: Kernel, out: set<nat>)
  {
    && Sizes(k) && (forall t :: t in out ==> t < |k.tasks|)
    && (forall t {:trigger TaskAt(k, out, t)} :: 0 <= t < |k.tasks| ==> TaskAt(k, out, t))
    && (forall p {:trigger ReadyAt(k, out, p)} :: 0 <= p < NUM_PRIORITY ==> ReadyAt(k, out, p))
    && (forall r {:trigger MailAt(k, out, r)} :: 0 <= r < |k.tasks| ==> MailAt(k, out, r))
    && (forall e {:trigger EventAt(k, out, e)} :: 0 <= e < NUM_EVENTS ==> EventAt(k, out, e))
  }

  /** The invariant at the head of kernel_runloop. */
  ghost predicate AtRest(k: Kernel)
  {
    Placed(k, {})
  }

  // ---- primitive steps ----

  /** A task on no queue may change in any way but its priority. */
  lemma Change(k: Kernel, out: set<nat>, t: nat, v: Task)
    requires Placed(k, out) && t in out && v.priority == k.tasks[t].priority
    ensures Placed(WithTask(k, t, v), out)
  {
    var k' := WithTask(k, t, v);
    forall x | 0 <= x < |k.tasks|
      ensures TaskAt(k', out, x) && MailAt(k', out, x)
    {
      assert TaskAt(k, out, x) && MailAt(k, out, x);
    }
    forall p | 0 <= p < NUM_PRIORITY
      ensures ReadyAt(k', out, p)
    {
      assert ReadyAt(k, out, p);
    }
    forall e | 0 <= e < NUM_EVENTS
      ensures EventAt(k', out, e)
    {
      assert EventAt(k, out, e);
    }
  }

  /** Memory and the pointer to the running task do not matter. */
  lemma SamePlaces(k: Kernel, k': Kernel, out: set<nat>)
    requires Placed(k, out) && k'.tasks == k.tasks && k'.ready == k.ready && k'.mailbox == k.mailbox
    requires k'.events == k.events
    ensures Placed(k', out)
  {
    forall x | 0 <= x < |k.tasks|
      ensures TaskAt(k', out, x) && MailAt(k', out, x)
    {
      assert TaskAt(k, out, x) && MailAt(k, out, x);
    }
    forall p | 0 <= p < NUM_PRIORITY
      ensures ReadyAt(k', out, p)
    {
      assert ReadyAt(k, out, p);
    }
    forall e | 0 <= e < NUM_EVENTS
      ensures EventAt(k', out, e)
    {
      assert EventAt(k, out, e);
    }
  }

  /** A task that is on no queue, and in a state that calls for none, is in its place. */
  lemma Settle(k: Kernel, out: set<nat>, t: nat)
    requires Placed(k, out) && t in out
    requires k.tasks[t].state == ReplyBlock || k.tasks[t].state == Zombie
             || (k.tasks[t].state == SendBlock && k.mailbox[t] == [])
    ensures Placed(k, out - {t})
  {
    forall x | 0 <= x < |k.tasks|
      ensures TaskAt(k, out - {t}, x) && MailAt(k, out - {t}, x)
    {
      assert TaskAt(k, out, x) && MailAt(k, out, x);
    }
    forall p | 0 <= p < NUM_PRIORITY
      ensures ReadyAt(k, out - {t}, p)
    {
      assert ReadyAt(k, out, p);
    }
    forall e | 0 <= e < NUM_EVENTS
      ensures EventAt(k, out - {t}, e)
    {
      assert EventAt(k, out, e);
    }
  }

  /** A task on no queue that needs none may be taken out. */
  lemma Unsettle(k: Kernel, out: set<nat>, t: nat)
    requires Placed(k, out) && t < |k.tasks|
    requires k.tasks[t].state == ReplyBlock || k.tasks[t].state == SendBlock
    ensures Placed(k, out + {t})
  {
    forall x | 0 <= x < |k.tasks|
      ensures TaskAt(k, out + {t}, x) && MailAt(k, out + {t}, x)
    {
      assert TaskAt(k, out, x) && MailAt(k, out, x);
    }
    forall p | 0 <= p < NUM_PRIORITY
      ensures ReadyAt(k, out + {t}, p)
    {
      assert ReadyAt(k, out, p);
    }
    forall e | 0 <= e < NUM_EVENTS
      ensures EventAt(k, out + {t}, e)
    {
      assert EventAt(k, out, e);
    }
  }

  /** scheduler_append puts a task in its place. */
  lemma ReadyPlaced(k: Kernel, out: set<nat>, t: nat)
    requires Placed(k, out) && t in out
    ensures Placed(MakeReady(k, t), out - {t})
  {
    var k', out' := MakeReady(k, t), out - {t};
    forall x | 0 <= x < |k.tasks|
      ensures TaskAt(k', out', x) && MailAt(k', out', x)
    {
      assert TaskAt(k, out, x) && MailAt(k, out, x);
    }
    forall p | 0 <= p < NUM_PRIORITY
      ensures ReadyAt(k', out', p)
    {
      assert ReadyAt(k, out, p);
      AppendDistinct(k.ready[p], t);
    }
    forall e | 0 <= e < NUM_EVENTS
      ensures EventAt(k', out', e)
    {
      assert EventAt(k, out, e);
    }
  }

  /** The task chosen by scheduler_get leaves its queue. */
  lemma TakenFromReady(k: Kernel, out: set<nat>, p: nat, k': Kernel)
    requires Placed(k, out) && p < NUM_PRIORITY && k.ready[p] != []
    requires k' == k.(ready := k.ready[p := k.ready[p][1..]])
    ensures k.ready[p][0] < |k.tasks| && k.ready[p][0] !in out && Placed(k', out + {k.ready[p][0]})
  {
    assert ReadyAt(k, out, p);
    var t := k.ready[p][0];
    var out' := out + {t};
    TailKeeps(k.ready[p]);
    forall x | 0 <= x < |k.tasks|
      ensures TaskAt(k', out', x) && MailAt(k', out', x)
    {
      assert TaskAt(k, out, x) && MailAt(k, out, x);
    }
    forall q | 0 <= q < NUM_PRIORITY
      ensures ReadyAt(k', out', q)
    {
      assert ReadyAt(k, out, q);
    }
    forall e | 0 <= e < NUM_EVENTS
      ensures EventAt(k', out', e)
    {
      assert EventAt(k, out, e);
    }
  }

  /** The first sender leaves the mailbox of r. */
  lemma TakenFromMailbox(k: Kernel, out: set<nat>, r: nat, k': Kernel)
    requires Placed(k, out) && r < |k.tasks| && k.mailbox[r] != []
    requires k' == k.(mailbox := k.mailbox[r := k.mailbox[r][1..]])
    ensures k.mailbox[r][0] < |k.tasks| && k.mailbox[r][0] !in out && Placed(k', out + {k.mailbox[r][0]})
  {
    assert MailAt(k, out, r);
    var s := k.mailbox[r][0];
    var out' := out + {s};
    TailKeeps(k.mailbox[r]);
    forall x | 0 <= x < |k.tasks|
      ensures TaskAt(k', out', x) && MailAt(k', out', x)
    {
      assert TaskAt(k, out, x) && MailAt(k, out, x);
    }
    forall q | 0 <= q < NUM_PRIORITY
      ensures ReadyAt(k', out', q)
    {
      assert ReadyAt(k, out, q);
    }
    forall e | 0 <= e < NUM_EVENTS
      ensures EventAt(k', out', e)
    {
      assert EventAt(k, out, e);
    }
  }

  /** A blocked sender joins the mailbox of r, which is not waiting for a message. */
  lemma JoinsMailbox(k: Kernel, out: set<nat>, s: nat, r: nat, k': Kernel)
    requires Placed(k, out) && s in out && r < |k.tasks| && Wanted(k, s) == r
    requires r !in out && k.tasks[r].state != SendBlock
    requires k' == WithState(k, s, ReceiveBlock).(mailbox := k.mailbox[r := k.mailbox[r] + [s]])
    ensures Placed(k', out - {s})
  {
    var out' := out - {s};
    forall x | 0 <= x < |k.tasks|
      ensures TaskAt(k', out', x) && MailAt(k', out', x)
    {
      assert TaskAt(k, out, x) && MailAt(k, out, x);
      AppendDistinct(k.mailbox[x], s);
    }
    forall q | 0 <= q < NUM_PRIORITY
      ensures ReadyAt(k', out', q)
    {
      assert ReadyAt(k, out, q);
    }
    forall e | 0 <= e < NUM_EVENTS
      ensures EventAt(k', out', e)
    {
      assert EventAt(k, out, e);
    }
  }

  /** A task takes a free event slot. */
  lemma JoinsEvent(k: Kernel, out: set<nat>, t: nat, e: nat, k': Kernel)
    requires Placed(k, out) && t in out && e < NUM_EVENTS && k.events[e] == NO_TASK && k.tasks[t].words.w1 == e
    requires k' == WithState(k, t, EventBlock).(events := k.events[e := t])
    ensures Placed(k', out - {t})
  {
    var out' := out - {t};
    forall x | 0 <= x < |k.tasks|
      ensures TaskAt(k', out', x) && MailAt(k', out', x)
    {
      assert TaskAt(k, out, x) && MailAt(k, out, x);
    }
    forall q | 0 <= q < NUM_PRIORITY
      ensures ReadyAt(k', out', q)
    {
      assert ReadyAt(k, out, q);
    }
    forall f | 0 <= f < NUM_EVENTS
      ensures EventAt(k', out', f)
    {
      assert EventAt(k, out, f);
    }
  }

  /** The task waiting for event e leaves the slot. */
  lemma TakenFromEvent(k: Kernel, out: set<nat>, e: nat, k': Kernel)
    requires Placed(k, out) && e < NUM_EVENTS && k.events[e] != NO_TASK
    requires k' == k.(events := k.events[e := NO_TASK])
    ensures IsTask(k, k.events[e]) && k.events[e] !in out && Placed(k', out + {k.events[e]})
  {
    assert EventAt(k, out, e);
    var out' := out + {k.events[e]};
    forall x | 0 <= x < |k.tasks|
      ensures TaskAt(k', out', x) && MailAt(k', out', x)
    {
      assert TaskAt(k, out, x) && MailAt(k, out, x);
    }
    forall q | 0 <= q < NUM_PRIORITY
      ensures ReadyAt(k', out', q)
    {
      assert ReadyAt(k, out, q);
    }
    forall f | 0 <= f < NUM_EVENTS
      ensures EventAt(k', out', f)
    {
      assert EventAt(k, out, f);
    }
  }

  /** A task that did not exist before. */
  lemma NewTask(k: Kernel, out: set<nat>, v: Task, k': Kernel)
    requires Placed(k, out) && |k.tasks| < NUM_MAX_TASK && v.priority < NUM_PRIORITY
    requires k' == k.(tasks := k.tasks + [v], mailbox := k.mailbox + [[]])
    ensures Placed(k', out + {|k.tasks|})
  {
    var out' := out + {|k.tasks|};
    forall x | 0 <= x < |k'.tasks|
      ensures TaskAt(k', out', x) && MailAt(k', out', x)
    {
      if x < |k.tasks| {
        assert TaskAt(k, out, x) && MailAt(k, out, x);
      }
    }
    forall q | 0 <= q < NUM_PRIORITY
      ensures ReadyAt(k', out', q)
    {
      assert ReadyAt(k, out, q);
    }
    forall f | 0 <= f < NUM_EVENTS
      ensures EventAt(k', out', f)
    {
      assert EventAt(k, out, f);
    }
  }

  // ---- whole steps ----

  lemma QueuesHold(k: Kernel, out: set<nat>)
    requires Placed(k, out)
    ensures QueuesHoldTasks(k)
  {
    forall p | 0 <= p < NUM_PRIORITY
      ensures forall i :: 0 <= i < |k.ready[p]| ==> k.ready[p][i] < |k.tasks|
    {
      assert ReadyAt(k, out, p);
    }
    forall r | 0 <= r < |k.tasks|
      ensures forall i :: 0 <= i < |k.mailbox[r]| ==> k.mailbox[r][i] < |k.tasks|
    {
      assert MailAt(k, out, r);
    }
    forall e | 0 <= e < NUM_EVENTS
      ensures k.events[e] == NO_TASK || IsTask(k, k.events[e])
    {
      assert EventAt(k, out, e);
    }
  }

  /** The running task is the only one off the queues. */
  ghost predicate Runs(k: Kernel, t: nat)
  {
    Placed(k, {t}) && k.running == t && k.tasks[t].state == Active
  }

  lemma SchedulePlaced(k: Kernel)
    requires AtRest(k) && FirstReady(k, 0) < NUM_PRIORITY
    ensures QueuesHoldTasks(k) && Runs(Schedule(k), Schedule(k).running)
  {
    QueuesHold(k, {});
    var p := FirstReady(k, 0);
    var t := k.ready[p][0];
    var k1 := k.(ready := k.ready[p := k.ready[p][1..]]);
    TakenFromReady(k, {}, p, k1);
    assert {} + {t} == {t};
    Change(k1, {t}, t, k1.tasks[t].(state := Active));
    SamePlaces(WithState(k1, t, Active), Schedule(k), {t});
  }

  /** A task on no queue comes to wait for nothing, for a message, or for good. */
  lemma Park(k: Kernel, out: set<nat>, t: nat, v: TaskState)
    requires Placed(k, out) && t in out && (v == ReplyBlock || v == Zombie || (v == SendBlock && k.mailbox[t] == []))
    ensures Placed(WithState(k, t, v), out - {t})
  {
    Change(k, out, t, k.tasks[t].(state := v));
    Settle(WithState(k, t, v), out, t);
  }

  lemma ResultPlaced(k: Kernel, out: set<nat>, t: nat, v: int)
    requires Placed(k, out) && t in out
    ensures Placed(WithResult(k, t, v), out)
  {
    Change(k, out, t, k.tasks[t].(words := k.tasks[t].words.(w0 := v)));
  }

  lemma HandOverPlaced(k: Kernel, out: set<nat>, s: nat, r: nat)
    requires Placed(k, out) && s in out && r in out && s != r
    ensures Placed(HandOver(k, s, r), out - {r} - {s})
  {
    var sent, wanted := k.tasks[s].words, k.tasks[r].words;
    var len := Min(High(sent.w2), wanted.w3);
    var k1 := k.(memory := WithWord(Copied(k.memory, sent.w1, wanted.w2, len), wanted.w1, s));
    SamePlaces(k, k1, out);
    ResultPlaced(k1, out, r, len);
    ReadyPlaced(WithResult(k1, r, len), out, r);
    Park(MakeReady(WithResult(k1, r, len), r), out - {r}, s, ReplyBlock);
  }

  lemma SendPlaced(k: Kernel, s: nat)
    requires Runs(k, s) && Wanted(k, s) != s
    ensures AtRest(Send(k, s))
  {
    var r := Wanted(k, s);
    assert {s} - {s} == {};
    if r >= |k.tasks| || k.tasks[r].state == Zombie {
      ResultPlaced(k, {s}, s, -2);
      ReadyPlaced(WithResult(k, s, -2), {s}, s);
    } else if k.tasks[r].state == SendBlock {
      Unsettle(k, {s}, r);
      HandOverPlaced(k, {s} + {r}, s, r);
      assert {s} + {r} - {r} - {s} == {};
    } else {
      JoinsMailbox(k, {s}, s, r, Send(k, s));
    }
  }

  lemma ReceivePlaced(k: Kernel, r: nat)
    requires Runs(k, r) && (|k.mailbox[r]| > 0 ==> k.mailbox[r][0] < |k.tasks|)
    ensures AtRest(Receive(k, r))
  {
    assert {r} - {r} == {};
    if |k.mailbox[r]| == 0 {
      Park(k, {r}, r, SendBlock);
    } else {
      var s := k.mailbox[r][0];
      var k1 := k.(mailbox := k.mailbox[r := k.mailbox[r][1..]]);
      TakenFromMailbox(k, {r}, r, k1);
      HandOverPlaced(k1, {r} + {s}, s, r);
      assert {r} + {s} - {r} - {s} == {};
    }
  }

  lemma ReplyPlaced(k: Kernel, t: nat)
    requires Runs(k, t)
    ensures Placed(Reply(k, t), {t}) && Reply(k, t).tasks[t].state == Active
  {
    var w := k.tasks[t].words;
    var s := w.w1 % TWO32;
    if s >= |k.tasks| {
      ResultPlaced(k, {t}, t, -2);
    } else if k.tasks[s].state != ReplyBlock {
      ResultPlaced(k, {t}, t, -3);
    } else {
      var asked := k.tasks[s].words;
      var len := Min(w.w3, Low(asked.w2));
      var k1 := k.(memory := Copied(k.memory, w.w2, asked.w3, len));
      SamePlaces(k, k1, {t});
      Unsettle(k1, {t}, s);
      var both := {t} + {s};
      ResultPlaced(k1, both, s, len);
      ReadyPlaced(WithResult(k1, s, len), both, s);
      assert both - {s} == {t};
      ResultPlaced(MakeReady(WithResult(k1, s, len), s), {t}, t, 0);
    }
  }

  /** AwaitEvent keeps everyone in place exactly when the event exists and nobody waits for it yet:
      otherwise the caller ends up on no queue and never runs again. */
  lemma AwaitEventPlaced(k: Kernel, t: nat)
    requires Runs(k, t)
    ensures var e := k.tasks[t].words.w1;
            AtRest(AwaitEvent(k, t)) <==> 0 <= e < NUM_EVENTS && k.events[e] == NO_TASK
  {
    var e := k.tasks[t].words.w1;
    var k' := AwaitEvent(k, t);
    if 0 <= e < NUM_EVENTS && k.events[e] == NO_TASK {
      JoinsEvent(k, {t}, t, e, k');
      assert {t} - {t} == {};
    } else {
      assert !TaskAt(k', {}, t);
    }
  }

  lemma ExitPlaced(k: Kernel, t: nat)
    requires Runs(k, t)
    ensures AtRest(Exit(k, t))
  {
    Park(k, {t}, t, Zombie);
    assert {t} - {t} == {};
  }

  lemma InterruptPlaced(k: Kernel, e: nat, v: int)
    requires AtRest(k) && e < NUM_EVENTS
    ensures QueuesHoldTasks(k) && AtRest(Interrupt(k, e, v))
  {
    QueuesHold(k, {});
    var t := k.events[e];
    var k1 := k.(events := k.events[e := NO_TASK]);
    if t == NO_TASK {
      assert k1 == k;
    } else {
      TakenFromEvent(k, {}, e, k1);
      assert {} + {t as nat} == {t as nat};
      ResultPlaced(k1, {t as nat}, t, v);
      ReadyPlaced(WithResult(k1, t, v), {t as nat}, t);
      assert {t as nat} - {t as nat} == {};
    }
  }

  lemma CreatePlaced(k: Kernel, out: set<nat>, priority: nat)
    requires Placed(k, out) && priority < NUM_PRIORITY && |k.tasks| < NUM_MAX_TASK
    ensures Placed(CreateTask(k, priority), out)
  {
    var t := |k.tasks|;
    var parent := if k.running == NO_TASK then NO_PARENT else k.running;
    var v := Task(Ready, priority, parent, Words(0, 0, 0, 0));
    var k1 := k.(tasks := k.tasks + [v], mailbox := k.mailbox + [[]]);
    NewTask(k, out, v, k1);
    ReadyPlaced(k1, out + {t}, t);
    assert out + {t} - {t} == out;
  }
}
