/** The kernel's data structures: task descriptors chained through one `next` field that the ready queues
    and the mailboxes share, queue ends, and the mask of non-empty queues. */
module KernelLinks {
  import opened KernelState
  import opened KernelPlacement
  import opened ReadyMask
  import opened LinkedLists

  datatype TaskDescriptor = TaskDescriptor(state: TaskState, priority: nat, parent: int, words: Words, next: int,
                                           sendQ: int)

  datatype TaskQueue = TaskQueue(begin: int, end: int)

  function View(td: TaskDescriptor): Task
  {
    Task(td.state, td.priority, td.parent, td.words)
  }

  /** The links of the descriptors. */
  ghost function Nexts(tds: seq<TaskDescriptor>): (next: seq<int>)
    ensures |next| == |tds| && forall t :: 0 <= t < |tds| ==> next[t] == tds[t].next
  {
    seq(|tds|, t requires 0 <= t < |tds| => tds[t].next)
  }

  ghost predicate TaskHolds(k: Kernel, tds: seq<TaskDescriptor>, t: nat)
    requires t < |k.tasks| <= |tds|
  {
    View(tds[t]) == k.tasks[t]
  }

  ghost predicate QueueHolds(k: Kernel, tds: seq<TaskDescriptor>, queues: seq<TaskQueue>, p: nat)
    requires p < |k.ready| == |queues|
  {
    Chain(Nexts(tds), queues[p].begin, k.ready[p]) && queues[p].end == LastOf(k.ready[p])
  }

  ghost predicate MailHolds(k: Kernel, tds: seq<TaskDescriptor>, r: nat)
    requires r < |k.mailbox| <= |tds|
  {
    Chain(Nexts(tds), tds[r].sendQ, k.mailbox[r])
  }

  ghost predicate BitHolds(k: Kernel, mask: bv32, p: nat)
    requires p < 32
  {
    IsSet(mask, p) <==> p < |k.ready| && k.ready[p] != []
  }

  ghost predicate MaskHolds(k: Kernel, mask: bv32)
  {
    forall p {:trigger BitHolds(k, mask, p)} :: 0 <= p < 32 ==> BitHolds(k, mask, p)
  }

  /** The descriptors and queue ends represent the tasks, ready queues and mailboxes of k. */
  ghost predicate LinksHold(k: Kernel, tds: seq<TaskDescriptor>, queues: seq<TaskQueue>)
  {
    && Sizes(k) && |tds| == NUM_MAX_TASK && |queues| == NUM_PRIORITY
    && (forall t {:trigger TaskHolds(k, tds, t)} :: 0 <= t < |k.tasks| ==> TaskHolds(k, tds, t))
    && (forall p {:trigger QueueHolds(k, tds, queues, p)} :: 0 <= p < NUM_PRIORITY ==> QueueHolds(k, tds, queues, p))
    && (forall r {:trigger MailHolds(k, tds, r)} :: 0 <= r < |k.tasks| ==> MailHolds(k, tds, r))
  }

  // ---- what may change without the links noticing ----

  lemma SameLinks(k: Kernel, k': Kernel, tds: seq<TaskDescriptor>, queues: seq<TaskQueue>)
    requires LinksHold(k, tds, queues) && k'.tasks == k.tasks && k'.ready == k.ready && k'.mailbox == k.mailbox
    requires Sizes(k')
    ensures LinksHold(k', tds, queues)
  {
    forall t | 0 <= t < |k.tasks|
      ensures TaskHolds(k', tds, t) && MailHolds(k', tds, t)
    {
      assert TaskHolds(k, tds, t) && MailHolds(k, tds, t);
    }
    forall p | 0 <= p < NUM_PRIORITY
      ensures QueueHolds(k', tds, queues, p)
    {
      assert QueueHolds(k, tds, queues, p);
    }
  }

  /** Changing anything about a task but its links. */
  lemma TaskChanged(k: Kernel, tds: seq<TaskDescriptor>, queues: seq<TaskQueue>, t: nat, td: TaskDescriptor)
    requires LinksHold(k, tds, queues) && t < |k.tasks| && td.next == tds[t].next && td.sendQ == tds[t].sendQ
    requires td.priority < NUM_PRIORITY
    ensures LinksHold(WithTask(k, t, View(td)), tds[t := td], queues)
  {
    var k', tds' := WithTask(k, t, View(td)), tds[t := td];
    forall x | 0 <= x < |k.tasks|
      ensures TaskHolds(k', tds', x) && MailHolds(k', tds', x)
    {
      assert TaskHolds(k, tds, x) && MailHolds(k, tds, x);
      ChainFrame(Nexts(tds), Nexts(tds'), tds[x].sendQ, k.mailbox[x]);
    }
    forall p | 0 <= p < NUM_PRIORITY
      ensures QueueHolds(k', tds', queues, p)
    {
      assert QueueHolds(k, tds, queues, p);
      ChainFrame(Nexts(tds), Nexts(tds'), queues[p].begin, k.ready[p]);
    }
  }

  // ---- ready queues ----

  /** What append_task writes. */
  function Appended(tds: seq<TaskDescriptor>, queue: TaskQueue, t: nat): (tds': seq<TaskDescriptor>)
    requires t < |tds| && (queue.begin != NO_TASK ==> 0 <= queue.end < |tds|)
    ensures |tds'| == |tds|
  {
    var tds1 := tds[t := tds[t].(next := NO_TASK)];
    if queue.begin == NO_TASK then tds1 else tds1[queue.end := tds1[queue.end].(next := t)]
  }

  /** Entries of the other queues and of the mailboxes are neither t nor the entry before it. */
  lemma ReadyAppended(k: Kernel, out: set<nat>, tds: seq<TaskDescriptor>, queues: seq<TaskQueue>, t: nat)
    requires LinksHold(k, tds, queues) && Placed(k, out) && t in out
    ensures var p := k.tasks[t].priority;
            && tds[t].priority == p && (queues[p].begin != NO_TASK ==> 0 <= queues[p].end < |tds|)
            && (queues[p].begin == NO_TASK <==> k.ready[p] == [])
            && LinksHold(k.(ready := k.ready[p := k.ready[p] + [t]]), Appended(tds, queues[p], t),
                         queues[p := TaskQueue(if queues[p].begin == NO_TASK then t else queues[p].begin, t)])
  {
    var p := k.tasks[t].priority;
    var s := k.ready[p];
    assert TaskHolds(k, tds, t) && QueueHolds(k, tds, queues, p) && ReadyAt(k, out, p);
    if |s| > 0 {
      assert LinkAt(Nexts(tds), s, |s| - 1);
    }
    var k', tds' := k.(ready := k.ready[p := s + [t]]), Appended(tds, queues[p], t);
    var queues' := queues[p := TaskQueue(if queues[p].begin == NO_TASK then t else queues[p].begin, t)];
    ChainAppend(Nexts(tds), Nexts(tds'), queues[p].begin, s, t);
    forall x | 0 <= x < |k.tasks|
      ensures TaskHolds(k', tds', x) && MailHolds(k', tds', x)
    {
      assert TaskHolds(k, tds, x) && MailHolds(k, tds, x) && MailAt(k, out, x);
      ChainFrame(Nexts(tds), Nexts(tds'), tds[x].sendQ, k.mailbox[x]);
    }
    forall q | 0 <= q < NUM_PRIORITY
      ensures QueueHolds(k', tds', queues', q)
    {
      if q != p {
        assert QueueHolds(k, tds, queues, q) && ReadyAt(k, out, q);
        ChainFrame(Nexts(tds), Nexts(tds'), queues[q].begin, k.ready[q]);
      }
    }
  }

  /** What next_ready_task writes to queue p, and to the task it takes. */
  lemma ReadyTaken(k: Kernel, tds: seq<TaskDescriptor>, queues: seq<TaskQueue>, p: nat)
    requires LinksHold(k, tds, queues) && Placed(k, {}) && p < NUM_PRIORITY && k.ready[p] != []
    ensures var t := k.ready[p][0];
            && t < |k.tasks| && queues[p].begin == t && (tds[t].next == NO_TASK <==> |k.ready[p]| == 1)
            && LinksHold(k.(ready := k.ready[p := k.ready[p][1..]]), tds[t := tds[t].(next := NO_TASK)],
                         queues[p := TaskQueue(tds[t].next, if tds[t].next == NO_TASK then NO_TASK else queues[p].end)])
  {
    var s := k.ready[p];
    var t := s[0];
    assert QueueHolds(k, tds, queues, p) && ReadyAt(k, {}, p);
    assert LinkAt(Nexts(tds), s, 0);
    TailKeeps(s);
    ChainTail(Nexts(tds), queues[p].begin, s);
    var k', tds' := k.(ready := k.ready[p := s[1..]]), tds[t := tds[t].(next := NO_TASK)];
    var queues' := queues[p := TaskQueue(tds[t].next, if tds[t].next == NO_TASK then NO_TASK else queues[p].end)];
    ChainFrame(Nexts(tds), Nexts(tds'), tds[t].next, s[1..]);
    forall x | 0 <= x < |k.tasks|
      ensures TaskHolds(k', tds', x) && MailHolds(k', tds', x)
    {
      assert TaskHolds(k, tds, x) && MailHolds(k, tds, x) && MailAt(k, {}, x);
      ChainFrame(Nexts(tds), Nexts(tds'), tds[x].sendQ, k.mailbox[x]);
    }
    forall q | 0 <= q < NUM_PRIORITY
      ensures QueueHolds(k', tds', queues', q)
    {
      if q != p {
        assert QueueHolds(k, tds, queues, q) && ReadyAt(k, {}, q);
        ChainFrame(Nexts(tds), Nexts(tds'), queues[q].begin, k.ready[q]);
      }
    }
  }

  lemma MaskAppended(k: Kernel, mask: bv32, p: nat, b: bv32, k': Kernel)
    requires Sizes(k) && MaskHolds(k, mask) && p < NUM_PRIORITY && b == Bit(p)
    requires |k'.ready| == |k.ready| && k'.ready[p] != []
             && (forall q :: 0 <= q < |k.ready| && q != p ==> k'.ready[q] == k.ready[q])
    ensures MaskHolds(k', mask | b)
  {
    var mask' := mask | b;
    forall q | 0 <= q < 32
      ensures BitHolds(k', mask', q)
    {
      assert BitHolds(k, mask, q);
      SameOrApart(p, q);
      SetOne(mask, p, q, b, Bit(q));
    }
  }

  lemma MaskTaken(k: Kernel, mask: bv32, p: nat, b: bv32, k': Kernel)
    requires Sizes(k) && MaskHolds(k, mask) && p < NUM_PRIORITY && b == Bit(p)
    requires |k'.ready| == |k.ready| && k'.ready[p] == []
             && (forall q :: 0 <= q < |k.ready| && q != p ==> k'.ready[q] == k.ready[q])
    ensures MaskHolds(k', mask & !b)
  {
    var mask' := mask & !b;
    forall q | 0 <= q < 32
      ensures BitHolds(k', mask', q)
    {
      assert BitHolds(k, mask, q);
      SameOrApart(p, q);
      ClearOne(mask, p, q, b, Bit(q));
    }
  }

  lemma MaskSame(k: Kernel, mask: bv32, k': Kernel)
    requires MaskHolds(k, mask) && |k'.ready| == |k.ready|
    requires forall q :: 0 <= q < |k.ready| ==> (k'.ready[q] == [] <==> k.ready[q] == [])
    ensures MaskHolds(k', mask)
  {
    forall q | 0 <= q < 32
      ensures BitHolds(k', mask, q)
    {
      assert BitHolds(k, mask, q);
    }
  }

  /** The mask leads to the same queue as looking at one queue after the other. */
  lemma MaskFindsFirst(k: Kernel, mask: bv32)
    requires Sizes(k) && MaskHolds(k, mask)
    ensures var p := FirstReady(k, 0);
            if p < NUM_PRIORITY then Position(mask) == p else Position(mask) == 0 && k.ready[0] == []
  {
    var p := FirstReady(k, 0);
    forall q | 0 <= q < p
      ensures !IsSet(mask, q)
    {
      assert BitHolds(k, mask, q);
    }
    if p < NUM_PRIORITY {
      assert BitHolds(k, mask, p);
      LowestBit(mask, p);
    } else {
      assert BitHolds(k, mask, 31);
      AllClear(mask);
      NoBit();
    }
  }

  // ---- mailboxes ----

  /** kernel_receive: the receiver's sendQ moves on; the sender's link is left as it was. */
  lemma MailTaken(k: Kernel, out: set<nat>, tds: seq<TaskDescriptor>, queues: seq<TaskQueue>, r: nat)
    requires LinksHold(k, tds, queues) && Placed(k, out) && r < |k.tasks| && k.mailbox[r] != []
    ensures var s := k.mailbox[r][0];
            && s < |k.tasks| && tds[r].sendQ == s
            && LinksHold(k.(mailbox := k.mailbox[r := k.mailbox[r][1..]]), tds[r := tds[r].(sendQ := tds[s].next)],
                         queues)
  {
    var q := k.mailbox[r];
    var s := q[0];
    assert MailHolds(k, tds, r) && MailAt(k, out, r) && TaskHolds(k, tds, r);
    ChainTail(Nexts(tds), tds[r].sendQ, q);
    var k', tds' := k.(mailbox := k.mailbox[r := q[1..]]), tds[r := tds[r].(sendQ := tds[s].next)];
    ChainFrame(Nexts(tds), Nexts(tds'), tds[s].next, q[1..]);
    forall x | 0 <= x < |k.tasks|
      ensures TaskHolds(k', tds', x) && MailHolds(k', tds', x)
    {
      assert TaskHolds(k, tds, x) && MailHolds(k, tds, x);
      ChainFrame(Nexts(tds), Nexts(tds'), tds[x].sendQ, k.mailbox[x]);
    }
    forall p | 0 <= p < NUM_PRIORITY
      ensures QueueHolds(k', tds', queues, p)
    {
      assert QueueHolds(k, tds, queues, p);
      ChainFrame(Nexts(tds), Nexts(tds'), queues[p].begin, k.ready[p]);
    }
  }

  /** *currentTD = sender, with currentTD the last link of the receiver's queue */
  function Joined(tds: seq<TaskDescriptor>, last: int, r: nat, s: nat): (tds': seq<TaskDescriptor>)
    requires r < |tds| && (last == NO_TASK || 0 <= last < |tds|)
    ensures |tds'| == |tds|
  {
    if last == NO_TASK then tds[r := tds[r].(sendQ := s)] else tds[last := tds[last].(next := s)]
  }

  /** kernel_send: the sender becomes the last of the receiver's queue. Its own link must be empty. */
  lemma MailJoined(k: Kernel, out: set<nat>, tds: seq<TaskDescriptor>, queues: seq<TaskQueue>, r: nat, s: nat)
    requires LinksHold(k, tds, queues) && Placed(k, out) && r < |k.tasks| && s in out && tds[s].next == NO_TASK
    ensures var last := LastOf(k.mailbox[r]);
            && (last == NO_TASK || 0 <= last < |k.tasks|)
            && LinksHold(k.(mailbox := k.mailbox[r := k.mailbox[r] + [s]]), Joined(tds, last, r, s), queues)
  {
    var q, last := k.mailbox[r], LastOf(k.mailbox[r]);
    assert MailHolds(k, tds, r) && MailAt(k, out, r) && TaskHolds(k, tds, r);
    var k', tds' := k.(mailbox := k.mailbox[r := q + [s]]), Joined(tds, last, r, s);
    ChainAppend(Nexts(tds), Nexts(tds'), tds[r].sendQ, q, s);
    forall x | 0 <= x < |k.tasks|
      ensures TaskHolds(k', tds', x) && MailHolds(k', tds', x)
    {
      assert TaskHolds(k, tds, x) && MailHolds(k, tds, x) && MailAt(k, out, x);
      if x != r {
        ChainFrame(Nexts(tds), Nexts(tds'), tds[x].sendQ, k.mailbox[x]);
      }
    }
    forall p | 0 <= p < NUM_PRIORITY
      ensures QueueHolds(k', tds', queues, p)
    {
      assert QueueHolds(k, tds, queues, p) && ReadyAt(k, out, p);
      ChainFrame(Nexts(tds), Nexts(tds'), queues[p].begin, k.ready[p]);
    }
  }

  /** kernel_createtask fills in the next free descriptor. */
  lemma TaskAdded(k: Kernel, out: set<nat>, tds: seq<TaskDescriptor>, queues: seq<TaskQueue>, td: TaskDescriptor)
    requires LinksHold(k, tds, queues) && Placed(k, out) && |k.tasks| < NUM_MAX_TASK
    requires td.next == NO_TASK && td.sendQ == NO_TASK && td.priority < NUM_PRIORITY
    ensures LinksHold(k.(tasks := k.tasks + [View(td)], mailbox := k.mailbox + [[]]), tds[|k.tasks| := td], queues)
  {
    var k', tds' := k.(tasks := k.tasks + [View(td)], mailbox := k.mailbox + [[]]), tds[|k.tasks| := td];
    forall x | 0 <= x < |k'.tasks|
      ensures TaskHolds(k', tds', x) && MailHolds(k', tds', x)
    {
      if x < |k.tasks| {
        assert TaskHolds(k, tds, x) && MailHolds(k, tds, x) && MailAt(k, out, x);
        ChainFrame(Nexts(tds), Nexts(tds'), tds[x].sendQ, k.mailbox[x]);
      }
    }
    forall p | 0 <= p < NUM_PRIORITY
      ensures QueueHolds(k', tds', queues, p)
    {
      assert QueueHolds(k, tds, queues, p) && ReadyAt(k, out, p);
      ChainFrame(Nexts(tds), Nexts(tds'), queues[p].begin, k.ready[p]);
    }
  }
}
