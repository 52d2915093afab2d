/** Message passing over whole runs: one first-in-first-out mailbox per receiver, every accepted message
    handed over once and answered once, and what a hand-over copies. */
module KernelMessages {
  import opened KernelState
  import opened KernelPlacement
  import opened KernelRuns
  import opened MachineWords

  datatype Mail = Mail(from: nat, to: nat)

  // ---- what one system call does with messages ----

  /** k is about to serve the system call of its running task. */
  ghost predicate Calling(k: Kernel)
  {
    Sizes(k) && IsTask(k, k.running) && Runs(k, k.running) && QueuesHoldTasks(k) && CallOk(k)
  }

  function Request(k: Kernel): int
    requires IsTask(k, k.running)
  {
    Low(k.tasks[k.running].words.w0)
  }

  /** The message the call sends, if there is someone to send it to. */
  ghost function Accepted(k: Kernel): (ms: seq<Mail>)
    requires Sizes(k) && IsTask(k, k.running)
    ensures |ms| <= 1
  {
    var r := Wanted(k, k.running);
    if Request(k) == SYSCALL_SEND && r < |k.tasks| && k.tasks[r].state != Zombie then [Mail(k.running, r)] else []
  }

  /** The message that changes hands. */
  ghost function Delivered(k: Kernel): (ms: seq<Mail>)
    requires Sizes(k) && IsTask(k, k.running)
    ensures |ms| <= 1
  {
    var t := k.running;
    if Request(k) == SYSCALL_SEND then
      var r := Wanted(k, t);
      if r < |k.tasks| && k.tasks[r].state == SendBlock then [Mail(t, r)] else []
    else if Request(k) == SYSCALL_RECEIVE && k.mailbox[t] != [] then [Mail(k.mailbox[t][0], t)] else []
  }

  /** The sender that gets its reply. */
  ghost function Answered(k: Kernel): (ts: seq<nat>)
    requires Sizes(k) && IsTask(k, k.running)
    ensures |ts| <= 1
  {
    var s := k.tasks[k.running].words.w1 % TWO32;
    if Request(k) == SYSCALL_REPLY && s < |k.tasks| && k.tasks[s].state == ReplyBlock then [s] else []
  }

  /** The senders of the messages to r, in order. */
  ghost function To(ms: seq<Mail>, r: nat): seq<nat>
  {
    if |ms| == 0 then []
    else
      var last := ms[|ms| - 1];
      To(ms[..|ms| - 1], r) + if last.to == r then [last.from] else []
  }

  ghost function From(ms: seq<Mail>, s: nat): nat
  {
    if |ms| == 0 then 0 else From(ms[..|ms| - 1], s) + if ms[|ms| - 1].from == s then 1 else 0
  }

  ghost function Times(ts: seq<nat>, s: nat): nat
  {
    if |ts| == 0 then 0 else Times(ts[..|ts| - 1], s) + if ts[|ts| - 1] == s then 1 else 0
  }

  ghost function Box(k: Kernel, r: nat): seq<nat>
    requires Sizes(k)
  {
    if r < |k.tasks| then k.mailbox[r] else []
  }

  ghost function Waits(k: Kernel, t: nat, s: TaskState): nat
  {
    if t < |k.tasks| && k.tasks[t].state == s then 1 else 0
  }

  /** As far as task x is concerned, nothing gets lost, doubled or overtaken on the way from k to k'. */
  ghost predicate ConservesAt(k: Kernel, k': Kernel, accepted: seq<Mail>, delivered: seq<Mail>, answered: seq<nat>,
                              x: nat)
    requires Sizes(k) && Sizes(k')
  {
    && Box(k, x) + To(accepted, x) == To(delivered, x) + Box(k', x)
    && Waits(k', x, ReceiveBlock) + From(delivered, x) == Waits(k, x, ReceiveBlock) + From(accepted, x)
    && Waits(k', x, ReplyBlock) + Times(answered, x) == Waits(k, x, ReplyBlock) + From(delivered, x)
  }

  ghost predicate Conserves(k: Kernel, k': Kernel, accepted: seq<Mail>, delivered: seq<Mail>, answered: seq<nat>)
    requires Sizes(k) && Sizes(k')
  {
    forall x {:trigger ConservesAt(k, k', accepted, delivered, answered, x)} ::
      ConservesAt(k, k', accepted, delivered, answered, x)
  }

  lemma One(m: Mail, t: nat)
    ensures To([m], t) == if m.to == t then [m.from] else []
    ensures From([m], t) == if m.from == t then 1 else 0
    ensures Times([m.from], t) == if m.from == t then 1 else 0
    ensures To([], t) == [] && From([], t) == 0 && Times([], t) == 0
  {
    assert [m][..0] == [] && [m.from][..0] == [];
  }

  /** Who waits for what after a message has changed hands. */
  lemma HandOverStates(k: Kernel, s: nat, r: nat, x: nat)
    requires Sizes(k) && s < |k.tasks| && r < |k.tasks| && s != r
    ensures var k' := HandOver(k, s, r);
            && k'.mailbox == k.mailbox
            && Waits(k', x, ReceiveBlock) == (if x == s || x == r then 0 else Waits(k, x, ReceiveBlock))
            && Waits(k', x, ReplyBlock) == (if x == s then 1 else if x == r then 0 else Waits(k, x, ReplyBlock))
  {
  }

  /** Who waits for what, and in which mailbox, after a Send. */
  lemma SendStates(k: Kernel, s: nat, x: nat)
    requires Sizes(k) && s < |k.tasks| && Wanted(k, s) != s && k.tasks[s].state == Active
    ensures var r := Wanted(k, s); var k' := Send(k, s);
            var alive := r < |k.tasks| && k.tasks[r].state != Zombie;
            var direct := alive && k.tasks[r].state == SendBlock;
            && Box(k', x) == (if alive && !direct && x == r then Box(k, x) + [s] else Box(k, x))
            && Waits(k', x, ReceiveBlock) == (if x == s && alive && !direct then 1 else Waits(k, x, ReceiveBlock))
            && Waits(k', x, ReplyBlock) == (if x == s && direct then 1 else Waits(k, x, ReplyBlock))
  {
    var r := Wanted(k, s);
    if r < |k.tasks| && k.tasks[r].state == SendBlock {
      HandOverStates(k, s, r, x);
    }
  }

  lemma SendConserves(k: Kernel, x: nat)
    requires Sizes(k) && IsTask(k, k.running) && k.tasks[k.running].state == Active && Request(k) == SYSCALL_SEND
    requires var r := Wanted(k, k.running);
             r != k.running && (r < |k.tasks| && k.tasks[r].state == SendBlock ==> k.mailbox[r] == [])
    ensures ConservesAt(k, Send(k, k.running), Accepted(k), Delivered(k), [], x)
  {
    var s := k.running;
    One(Mail(s, Wanted(k, s)), x);
    SendStates(k, s, x);
    SendKind(k);
    assert Box(k, x) + [] == Box(k, x);
  }

  /** What a Send has accepted and handed over. */
  lemma SendKind(k: Kernel)
    requires Sizes(k) && IsTask(k, k.running) && Request(k) == SYSCALL_SEND
    ensures var s := k.running; var r := Wanted(k, s);
            var alive := r < |k.tasks| && k.tasks[r].state != Zombie;
            && Accepted(k) == (if alive then [Mail(s, r)] else [])
            && Delivered(k) == (if alive && k.tasks[r].state == SendBlock then [Mail(s, r)] else [])
  {
  }

  lemma ReceiveConserves(k: Kernel, x: nat)
    requires Sizes(k) && IsTask(k, k.running) && k.tasks[k.running].state == Active && Request(k) == SYSCALL_RECEIVE
    requires var r := k.running;
             k.mailbox[r] != [] ==>
               var s := k.mailbox[r][0]; s < |k.tasks| && s != r && k.tasks[s].state == ReceiveBlock
    ensures ConservesAt(k, Receive(k, k.running), [], Delivered(k), [], x)
  {
    var r := k.running;
    One(Mail(r, r), x);
    assert Box(k, x) + [] == Box(k, x);
    if k.mailbox[r] != [] {
      var s := k.mailbox[r][0];
      One(Mail(s, r), x);
      HandOverStates(k.(mailbox := k.mailbox[r := k.mailbox[r][1..]]), s, r, x);
    }
  }

  lemma ReplyConserves(k: Kernel, x: nat)
    requires Sizes(k) && IsTask(k, k.running) && k.tasks[k.running].state == Active && Request(k) == SYSCALL_REPLY
    ensures ConservesAt(k, MakeReady(Reply(k, k.running), k.running), [], [], Answered(k), x)
  {
    var s := k.tasks[k.running].words.w1 % TWO32;
    One(Mail(s, s), x);
  }

  lemma OtherCallConserves(k: Kernel, latestIdle: int, x: nat)
    requires Calling(k) && Request(k) != SYSCALL_SEND && Request(k) != SYSCALL_RECEIVE && Request(k) != SYSCALL_REPLY
    ensures ConservesAt(k, Call(k, latestIdle), [], [], [], x)
  {
  }

  /** What a call accepts, hands over and answers, by its kind. */
  lemma KindOfCall(k: Kernel, latestIdle: int)
    requires Calling(k)
    ensures Request(k) != SYSCALL_SEND ==> Accepted(k) == []
    ensures Request(k) != SYSCALL_SEND && Request(k) != SYSCALL_RECEIVE ==> Delivered(k) == []
    ensures Request(k) != SYSCALL_REPLY ==> Answered(k) == []
    ensures Request(k) == SYSCALL_SEND ==> Call(k, latestIdle) == Send(k, k.running)
    ensures Request(k) == SYSCALL_RECEIVE ==> Call(k, latestIdle) == Receive(k, k.running)
    ensures Request(k) == SYSCALL_REPLY ==> Call(k, latestIdle) == MakeReady(Reply(k, k.running), k.running)
  {
  }

  lemma CallConservesAt(k: Kernel, latestIdle: int, x: nat, k': Kernel)
    requires Calling(k) && k' == Call(k, latestIdle)
    ensures ConservesAt(k, k', Accepted(k), Delivered(k), Answered(k), x)
  {
    var t := k.running;
    KindOfCall(k, latestIdle);
    if Request(k) == SYSCALL_SEND {
      if Wanted(k, t) < |k.tasks| {
        assert TaskAt(k, {t as nat}, Wanted(k, t));
      }
      SendConserves(k, x);
    } else if Request(k) == SYSCALL_RECEIVE {
      assert MailAt(k, {t as nat}, t);
      ReceiveConserves(k, x);
    } else if Request(k) == SYSCALL_REPLY {
      ReplyConserves(k, x);
    } else {
      OtherCallConserves(k, latestIdle, x);
    }
  }

  /** Every system call conserves messages. */
  lemma CallConserves(k: Kernel, latestIdle: int)
    requires Calling(k)
    ensures Conserves(k, Call(k, latestIdle), Accepted(k), Delivered(k), Answered(k))
  {
    forall x
      ensures ConservesAt(k, Call(k, latestIdle), Accepted(k), Delivered(k), Answered(k), x)
    {
      CallConservesAt(k, latestIdle, x, Call(k, latestIdle));
    }
  }

  /** So does an interrupt. */
  lemma InterruptConserves(k: Kernel, t: nat, e: nat, v: int)
    requires Runs(k, t) && e < NUM_EVENTS && QueuesHoldTasks(MakeReady(k, t))
    ensures Conserves(k, Interrupt(MakeReady(k, t), e, v), [], [], [])
  {
    forall x
      ensures ConservesAt(k, Interrupt(MakeReady(k, t), e, v), [], [], [], x)
    {
      assert EventAt(k, {t}, e);
    }
  }

  // ---- whole runs ----

  /** What has happened since the start: messages accepted, messages handed over, senders answered. */
  datatype Log = Log(sent: seq<Mail>, delivered: seq<Mail>, answered: seq<nat>)

  /** For every receiver: what has been sent to it is what has been handed to it, followed by what is
      still in its mailbox. Every accepted message is handed over once and answered once, in that
      order, while its sender is blocked. */
  ghost predicate LogOkAt(k: Kernel, log: Log, x: nat)
    requires Sizes(k)
  {
    && To(log.sent, x) == To(log.delivered, x) + Box(k, x)
    && From(log.sent, x) == From(log.delivered, x) + Waits(k, x, ReceiveBlock)
    && From(log.delivered, x) == Times(log.answered, x) + Waits(k, x, ReplyBlock)
  }

  ghost predicate LogOk(k: Kernel, log: Log)
    requires Sizes(k)
  {
    forall x {:trigger LogOkAt(k, log, x)} :: LogOkAt(k, log, x)
  }

  lemma LongerMail(ms: seq<Mail>, more: seq<Mail>, x: nat)
    requires |more| <= 1
    ensures To(ms + more, x) == To(ms, x) + To(more, x) && From(ms + more, x) == From(ms, x) + From(more, x)
  {
    if |more| == 0 {
      assert ms + more == ms;
    } else {
      assert (ms + more)[..|ms + more| - 1] == ms;
      One(more[0], x);
      assert more == [more[0]];
    }
  }

  lemma LongerAnswered(ts: seq<nat>, more: seq<nat>, x: nat)
    requires |more| <= 1
    ensures Times(ts + more, x) == Times(ts, x) + Times(more, x)
  {
    if |more| == 0 {
      assert ts + more == ts;
    } else {
      assert (ts + more)[..|ts + more| - 1] == ts;
      One(Mail(more[0], 0), x);
      assert more == [more[0]];
    }
  }

  ghost function Extended(log: Log, accepted: seq<Mail>, delivered: seq<Mail>, answered: seq<nat>): Log
  {
    Log(log.sent + accepted, log.delivered + delivered, log.answered + answered)
  }

  lemma LogGrows(k: Kernel, k': Kernel, log: Log, accepted: seq<Mail>, delivered: seq<Mail>, answered: seq<nat>)
    requires Sizes(k) && Sizes(k') && LogOk(k, log) && Conserves(k, k', accepted, delivered, answered)
    requires |accepted| <= 1 && |delivered| <= 1 && |answered| <= 1
    ensures LogOk(k', Extended(log, accepted, delivered, answered))
  {
    var log' := Extended(log, accepted, delivered, answered);
    forall x
      ensures LogOkAt(k', log', x)
    {
      assert LogOkAt(k, log, x) && ConservesAt(k, k', accepted, delivered, answered, x);
      LongerMail(log.sent, accepted, x);
      LongerMail(log.delivered, delivered, x);
      LongerAnswered(log.answered, answered, x);
      var d := To(log.delivered, x);
      assert d + (Box(k, x) + To(accepted, x)) == d + Box(k, x) + To(accepted, x);
      assert d + (To(delivered, x) + Box(k', x)) == d + To(delivered, x) + Box(k', x);
    }
  }

  ghost predicate CanTurn(k: Kernel, u: Turn)
  {
    AtRest(k) && FirstReady(k, 0) < NUM_PRIORITY && TurnOk(k, u)
  }

  /** The kernel when the task it has chosen traps. */
  ghost function Trapped(k: Kernel, u: Turn): (k1: Kernel)
    requires CanTurn(k, u)
    ensures Runs(k1, Schedule(k).running) && (u.trap.SystemCall? ==> Calling(k1))
  {
    UsedRuns(k, u);
    Used(Schedule(k), u)
  }

  /** The log after one turn. */
  ghost function Noted(log: Log, k: Kernel, u: Turn): Log
    requires CanTurn(k, u)
  {
    var k1 := Trapped(k, u);
    if u.trap.SystemCall? then Extended(log, Accepted(k1), Delivered(k1), Answered(k1)) else Extended(log, [], [], [])
  }

  /** Being chosen to run is no event for anybody's messages. */
  lemma TrappedLog(k: Kernel, u: Turn, log: Log)
    requires CanTurn(k, u) && LogOk(k, log)
    ensures LogOk(Trapped(k, u), log)
  {
    var k1 := Trapped(k, u);
    SchedulePlaced(k);
    assert ReadyAt(k, {}, FirstReady(k, 0));
    forall x
      ensures LogOkAt(k1, log, x)
    {
      assert LogOkAt(k, log, x);
    }
  }

  lemma TurnKeepsLog(k: Kernel, u: Turn, latestIdle: int, log: Log)
    requires CanTurn(k, u) && LogOk(k, log)
    ensures LogOk(Loop(k, u, latestIdle), Noted(log, k, u))
  {
    TrappedLog(k, u, log);
    var k1 := Trapped(k, u);
    match u.trap
    case HardwareInterrupt(e, v) =>
      ReadyPlaced(k1, {k1.running as nat}, k1.running);
      assert {k1.running as nat} - {k1.running as nat} == {};
      QueuesHold(MakeReady(k1, k1.running), {});
      InterruptConserves(k1, k1.running, e, v);
      LogGrows(k1, Interrupt(MakeReady(k1, k1.running), e, v), log, [], [], []);
    case SystemCall =>
      CallConserves(k1, latestIdle);
      LogGrows(k1, Call(k1, latestIdle), log, Accepted(k1), Delivered(k1), Answered(k1));
  }

  /** k and log are what the turns lead to. */
  ghost predicate Logged(start: Kernel, turns: seq<Turn>, idles: seq<int>, k: Kernel, log: Log)
    decreases |turns|
  {
    |idles| == |turns| &&
    if |turns| == 0 then k == start && log == Log([], [], [])
    else
      var last := |turns| - 1;
      exists k0, log0 ::
        && Logged(start, turns[..last], idles[..last], k0, log0) && CanTurn(k0, turns[last])
        && k == Loop(k0, turns[last], idles[last]) && log == Noted(log0, k0, turns[last])
  }

  /** Whatever the tasks do, as long as they keep to the rules: at the head of the loop every task is in
      exactly its place, and some task is ready. */
  lemma {:induction false} EveryRun(start: Kernel, turns: seq<Turn>, idles: seq<int>, k: Kernel, log: Log)
    requires Going(start) && Logged(start, turns, idles, k, log)
    ensures Going(k)
    decreases |turns|
  {
    if |turns| > 0 {
      var last := |turns| - 1;
      var k0, log0 :| && Logged(start, turns[..last], idles[..last], k0, log0) && CanTurn(k0, turns[last])
                      && k == Loop(k0, turns[last], idles[last]) && log == Noted(log0, k0, turns[last]);
      EveryRun(start, turns[..last], idles[..last], k0, log0);
      TurnKeepsGoing(k0, turns[last], idles[last], k);
    }
  }

  /** Nobody has sent anything yet. */
  ghost predicate Silent(k: Kernel)
  {
    && AtRest(k) && IdleReady(k)
    && forall t :: 0 <= t < |k.tasks| ==> k.mailbox[t] == [] && k.tasks[t].state == Ready
  }

  /** The kernel starts silent, whichever tasks are created before the loop. */
  lemma {:induction false} StartIsSilent(k: Kernel, priorities: seq<nat>)
    requires Silent(k) && |k.tasks| + |priorities| <= NUM_MAX_TASK
    requires forall i :: 0 <= i < |priorities| ==> priorities[i] < NUM_PRIORITY
    ensures Silent(WithTasks(k, priorities))
    decreases |priorities|
  {
    if |priorities| > 0 {
      CreatePlaced(k, {}, priorities[0]);
      StartIsSilent(CreateTask(k, priorities[0]), priorities[1..]);
    }
  }

  lemma BootIsSilent(m: Memory)
    ensures Silent(Booted(m))
  {
  }

  /** Every run from a silent start delivers each receiver's messages in the order in which they were
      sent, and answers each sender once for each. */
  lemma {:induction false} EveryRunInOrder(start: Kernel, turns: seq<Turn>, idles: seq<int>, k: Kernel, log: Log)
    requires Silent(start) && Logged(start, turns, idles, k, log)
    ensures Sizes(k) && LogOk(k, log)
    decreases |turns|
  {
    if |turns| == 0 {
      forall x
        ensures LogOkAt(k, log, x)
      {
      }
    } else {
      var last := |turns| - 1;
      var k0, log0 :| && Logged(start, turns[..last], idles[..last], k0, log0) && CanTurn(k0, turns[last])
                      && k == Loop(k0, turns[last], idles[last]) && log == Noted(log0, k0, turns[last]);
      EveryRunInOrder(start, turns[..last], idles[..last], k0, log0);
      TurnKeepsLog(k0, turns[last], idles[last], log0);
    }
  }

  /** When a task runs, each message it has ever sent has been received once and answered once. */
  lemma SentAndAnswered(k: Kernel, u: Turn, log: Log)
    requires CanTurn(k, u) && LogOk(k, log)
    ensures var t := Schedule(k).running;
            From(log.sent, t) == From(log.delivered, t) == Times(log.answered, t)
  {
    var t := Schedule(k).running;
    SchedulePlaced(k);
    assert ReadyAt(k, {}, FirstReady(k, 0));
    assert LogOkAt(k, log, t);
  }

  // ---- what is copied ----

  /** Where the byte at a comes from when bytes are copied one by one, in rising order, from one place to
      another: from its counterpart, unless the copy runs into what it has already written, and then the
      bytes between the two beginnings are repeated. */
  function CopiedFrom(from: int, to: int, a: int): int
    decreases a - to
  {
    if to <= from || a - to < to - from then from + (a - to) else CopiedFrom(from, to, a - (to - from))
  }

  /** memcpy_no_overlap_asm, overlaps included. */
  lemma {:induction false} CopiedBytes(m: Memory, from: int, to: int, len: int, a: int)
    ensures Copied(m, from, to, len)(a) == if to <= a < to + len then m(CopiedFrom(from, to, a)) else m(a)
    ensures to <= a < to + len && Apart(from, len, to, len) ==> CopiedFrom(from, to, a) == from + (a - to)
    decreases len
  {
    if len > 0 {
      CopiedBytes(m, from, to, len - 1, a);
      CopiedBytes(m, from, to, len - 1, from + len - 1);
    }
  }

  /** Neither byte range touches the other. */
  predicate Apart(a: int, alen: int, b: int, blen: int)
  {
    alen <= 0 || blen <= 0 || a + alen <= b || b + blen <= a
  }

  /** What a message that changes hands leaves behind: exactly the smaller of the two lengths of bytes
      copied, that length and the sender's number reported, the receiver ready, the sender waiting. */
  lemma HandedOver(k: Kernel, s: nat, r: nat, a: int)
    requires Sizes(k) && s < |k.tasks| && r < |k.tasks| && s != r
    ensures var k' := HandOver(k, s, r); var sent, wanted := k.tasks[s].words, k.tasks[r].words;
            var len := Min(High(sent.w2), wanted.w3);
            && k'.tasks[r] == k.tasks[r].(state := Ready, words := wanted.(w0 := len))
            && k'.tasks[s] == k.tasks[s].(state := ReplyBlock)
            && k'.memory(wanted.w1) == s
            && k'.memory(wanted.w1 + 1) == 0 && k'.memory(wanted.w1 + 2) == 0 && k'.memory(wanted.w1 + 3) == 0
            && (!(wanted.w1 <= a < wanted.w1 + 4) ==>
                  k'.memory(a) ==
                    if wanted.w2 <= a < wanted.w2 + len then k.memory(CopiedFrom(sent.w1, wanted.w2, a))
                    else k.memory(a))
  {
    var sent, wanted := k.tasks[s].words, k.tasks[r].words;
    CopiedBytes(k.memory, sent.w1, wanted.w2, Min(High(sent.w2), wanted.w3), a);
  }

  /** What a Reply does: an error when there is no such task or it does not wait for a reply; otherwise
      the smaller of the two lengths of bytes is copied and reported, and the sender is ready. */
  lemma Replied(k: Kernel, t: nat, a: int)
    requires Sizes(k) && t < |k.tasks| && k.tasks[t].state == Active
    ensures var k' := Reply(k, t); var s := k.tasks[t].words.w1 % TWO32;
            && k'.tasks[t] == k.tasks[t].(words := k.tasks[t].words.(w0 := k'.tasks[t].words.w0))
            && (k'.tasks[t].words.w0 == -2 <==> s >= |k.tasks|)
            && (k'.tasks[t].words.w0 == -3 <==> s < |k.tasks| && k.tasks[s].state != ReplyBlock)
            && (k'.tasks[t].words.w0 == 0 <==> s < |k.tasks| && k.tasks[s].state == ReplyBlock)
            && if k'.tasks[t].words.w0 != 0 then k'.memory == k.memory && k'.ready == k.ready
               else
                 var len := Min(k.tasks[t].words.w3, Low(k.tasks[s].words.w2));
                 var from, to := k.tasks[t].words.w2, k.tasks[s].words.w3;
                 && k'.tasks[s] == k.tasks[s].(state := Ready, words := k.tasks[s].words.(w0 := len))
                 && k'.memory(a) == if to <= a < to + len then k.memory(CopiedFrom(from, to, a)) else k.memory(a)
  {
    var s := k.tasks[t].words.w1 % TWO32;
    if s < |k.tasks| {
      var len := Min(k.tasks[t].words.w3, Low(k.tasks[s].words.w2));
      CopiedBytes(k.memory, k.tasks[t].words.w2, k.tasks[s].words.w3, len, a);
    }
  }

  /** Sending to a task that waits is the same as joining its empty mailbox and being taken out of it
      at once: the short cut never overtakes anyone. */
  lemma DirectIsThroughMailbox(k: Kernel, s: nat)
    requires Sizes(k) && s < |k.tasks| && Wanted(k, s) < |k.tasks| && Wanted(k, s) != s
    requires var r := Wanted(k, s); k.tasks[r].state == SendBlock && k.mailbox[r] == []
    ensures var r := Wanted(k, s);
            var queued := WithState(k, s, ReceiveBlock).(mailbox := k.mailbox[r := [s]]);
            Send(k, s) == Receive(queued, r)
  {
    var r := Wanted(k, s);
    var queued := WithState(k, s, ReceiveBlock).(mailbox := k.mailbox[r := [s]]);
    var taken := queued.(mailbox := queued.mailbox[r := queued.mailbox[r][1..]]);
    assert [s][1..] == k.mailbox[r];
    assert taken.mailbox == k.mailbox;
    assert HandOver(k, s, r).tasks == HandOver(taken, s, r).tasks;
  }

  // ---- the words of a Send ----

  /** Send in kernel/syscall.c: -1 at once, or the words it traps with. */
  datatype SendCall = Refused | Trap(words: Words)

  function SendWords(tid: int, msg: int, msglen: int, reply: int, replylen: int): SendCall
  {
    if tid >= NUM_MAX_TASK then Refused
    else Trap(Words(Pack(tid, SYSCALL_SEND), msg, Pack(msglen, replylen), reply))
  }

  /** A task number that is none is refused, unless it is negative. The kernel takes apart what Send has put
      together, everything modulo 65536: it sees the receiver meant, and the lengths meant exactly when they
      fit in sixteen bits. */
  lemma SendWordsRoundTrip(tid: int, msg: int, msglen: int, reply: int, replylen: int)
    ensures var c := SendWords(tid, msg, msglen, reply, replylen);
            && (c == Refused <==> tid >= NUM_MAX_TASK)
            && (c.Trap? ==>
                  var w := c.words;
                  && Low(w.w0) == SYSCALL_SEND && w.w1 == msg && w.w3 == reply
                  && High(w.w0) == tid % TWO16 && High(w.w2) == msglen % TWO16 && Low(w.w2) == replylen % TWO16
                  && (High(w.w0) == tid <==> 0 <= tid)
                  && (High(w.w2) == msglen && Low(w.w2) == replylen <==> 0 <= msglen < TWO16 && 0 <= replylen < TWO16))
  {
    Unpack(tid, SYSCALL_SEND);
    Unpack(msglen, replylen);
  }

  lemma Unpack(hi: int, lo: int)
    ensures High(Pack(hi, lo)) == hi % TWO16 && Low(Pack(hi, lo)) == lo % TWO16
  {
    var a, b := hi % TWO16, lo % TWO16;
    assert 0 <= a * TWO16 + b < TWO32;
  }
}
