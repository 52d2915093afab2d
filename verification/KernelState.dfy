/**
 The microkernel's state and what each system call, interrupt and scheduling step does to it
 (kernel/kernel.c). A task is its index in tds; queues are sequences of tasks, oldest first.
 */
module KernelState {
  import opened MachineWords

  const NUM_PRIORITY: nat := 31
  const LOWEST_PRIORITY: nat := NUM_PRIORITY - 1
  const NUM_MAX_TASK: nat := 128
  const NUM_EVENTS: nat := 64
  const NO_TASK: int := -1
  const NO_PARENT: int := 0xdeadbeef

  const SYSCALL_CREATE: int := 0
  const SYSCALL_MYTID: int := 1
  const SYSCALL_MYPARENTTID: int := 2
  const SYSCALL_PASS: int := 3
  const SYSCALL_IDLE: int := 4
  const SYSCALL_REPLY: int := 5
  const SYSCALL_SEND: int := 6
  const SYSCALL_RECEIVE: int := 7
  const SYSCALL_EXIT: int := 8
  const SYSCALL_AWAITEVENT: int := 9
  const LAST_SYSCALL: int := 10


  datatype TaskState = Active | Ready | Zombie | SendBlock | ReceiveBlock | ReplyBlock | EventBlock

  /** The four argument words a task saved on its stack when it trapped; w0 becomes the result. */
  datatype Words = Words(w0: int, w1: int, w2: int, w3: int)

  datatype Task = Task(state: TaskState, priority: nat, parent: int, words: Words)

  /** Memory: a byte at every address. */
  type Memory = int -> int

  datatype Kernel = Kernel(
    tasks: seq<Task>,
    ready: seq<seq<nat>>,
    mailbox: seq<seq<nat>>,
    events: seq<int>,
    running: int,
    memory: Memory
  )

  // ---- words ----

  /** (w & MASK_HIGHER) >> 16 and w & MASK_LOWER, on the 32 bits of w */
  function High(w: int): nat
  {
    w % TWO32 / TWO16
  }

  function Low(w: int): nat
  {
    w % TWO16
  }

  /** (hi & MASK_LOWER) << 16 | (lo & MASK_LOWER) */
  function Pack(hi: int, lo: int): int
  {
    hi % TWO16 * TWO16 + lo % TWO16
  }

  function Min(a: int, b: int): int
  {
    if a < b then a else b
  }

  // ---- memory ----

  function WithByte(m: Memory, at: int, v: int): Memory
  {
    a => if a == at then v else m(a)
  }

  /** memcpy_no_overlap_asm: byte after byte, in rising order. */
  function Copied(m: Memory, from: int, to: int, len: int): Memory
    decreases len
  {
    if len <= 0 then m
    else
      var m' := Copied(m, from, to, len - 1);
      WithByte(m', to + len - 1, m'(from + len - 1))
  }

  /** Storing a word, lowest byte first. */
  function WithWord(m: Memory, at: int, v: int): Memory
  {
    WithByte(WithByte(WithByte(WithByte(m, at, v % 256), at + 1, v / 256 % 256), at + 2, v / 65536 % 256), at + 3,
             v / 16777216 % 256)
  }

  // ---- small steps ----

  predicate IsTask(k: Kernel, t: int)
  {
    0 <= t < |k.tasks|
  }

  function WithTask(k: Kernel, t: nat, v: Task): Kernel
    requires t < |k.tasks|
  {
    k.(tasks := k.tasks[t := v])
  }

  function WithState(k: Kernel, t: nat, s: TaskState): Kernel
    requires t < |k.tasks|
  {
    WithTask(k, t, k.tasks[t].(state := s))
  }

  /** Writes a task's result: the word w0. */
  function WithResult(k: Kernel, t: nat, v: int): Kernel
    requires t < |k.tasks|
  {
    WithTask(k, t, k.tasks[t].(words := k.tasks[t].words.(w0 := v)))
  }

  predicate Sizes(k: Kernel)
  {
    && |k.ready| == NUM_PRIORITY && |k.mailbox| == |k.tasks| <= NUM_MAX_TASK && |k.events| == NUM_EVENTS
    && forall t :: 0 <= t < |k.tasks| ==> k.tasks[t].priority < NUM_PRIORITY
  }

  /** state = READY; scheduler_append */
  function MakeReady(k: Kernel, t: nat): (k': Kernel)
    requires Sizes(k) && t < |k.tasks|
    ensures Sizes(k') && |k'.tasks| == |k.tasks|
  {
    var p := k.tasks[t].priority;
    WithState(k, t, Ready).(ready := k.ready[p := k.ready[p] + [t]])
  }

  // ---- system calls of the running task ----

  /** kernel_createtask; code is the entry point, which is not modelled. */
  function CreateTask(k: Kernel, priority: nat): (k': Kernel)
    requires Sizes(k) && priority < NUM_PRIORITY && |k.tasks| < NUM_MAX_TASK
    ensures Sizes(k')
  {
    var t := |k.tasks|;
    var parent := if k.running == NO_TASK then NO_PARENT else k.running;
    MakeReady(k.(tasks := k.tasks + [Task(Ready, priority, parent, Words(0, 0, 0, 0))], mailbox := k.mailbox + [[]]), t)
  }

  /** A message changes hands: the bytes are copied, the receiver is made ready with the length and
      the sender's number, the sender waits for a reply. */
  function HandOver(k: Kernel, s: nat, r: nat): (k': Kernel)
    requires Sizes(k) && s < |k.tasks| && r < |k.tasks|
    ensures Sizes(k') && |k'.tasks| == |k.tasks|
  {
    var sent, wanted := k.tasks[s].words, k.tasks[r].words;
    var len := Min(High(sent.w2), wanted.w3);
    var k1 := k.(memory := WithWord(Copied(k.memory, sent.w1, wanted.w2, len), wanted.w1, s));
    WithState(MakeReady(WithResult(k1, r, len), r), s, ReplyBlock)
  }

  /** kernel_send by task s. A task must not send to itself. */
  function Send(k: Kernel, s: nat): (k': Kernel)
    requires Sizes(k) && s < |k.tasks| && High(k.tasks[s].words.w0) != s
    ensures Sizes(k') && |k'.tasks| == |k.tasks|
  {
    var r := High(k.tasks[s].words.w0);
    if r >= |k.tasks| || k.tasks[r].state == Zombie then MakeReady(WithResult(k, s, -2), s)
    else if k.tasks[r].state == SendBlock then HandOver(k, s, r)
    else WithState(k, s, ReceiveBlock).(mailbox := k.mailbox[r := k.mailbox[r] + [s]])
  }

  /** kernel_receive by task r */
  function Receive(k: Kernel, r: nat): (k': Kernel)
    requires Sizes(k) && r < |k.tasks| && (|k.mailbox[r]| > 0 ==> k.mailbox[r][0] < |k.tasks|)
    ensures Sizes(k') && |k'.tasks| == |k.tasks|
  {
    if |k.mailbox[r]| == 0 then WithState(k, r, SendBlock)
    else HandOver(k.(mailbox := k.mailbox[r := k.mailbox[r][1..]]), k.mailbox[r][0], r)
  }

  /** kernel_reply by task t, which goes on running */
  function Reply(k: Kernel, t: nat): (k': Kernel)
    requires Sizes(k) && t < |k.tasks|
    ensures Sizes(k') && |k'.tasks| == |k.tasks|
  {
    var w := k.tasks[t].words;
    var s := w.w1 % TWO32;
    if s >= |k.tasks| then WithResult(k, t, -2)
    else if k.tasks[s].state != ReplyBlock then WithResult(k, t, -3)
    else
      var asked := k.tasks[s].words;
      var len := Min(w.w3, Low(asked.w2));
      var k1 := k.(memory := Copied(k.memory, w.w2, asked.w3, len));
      WithResult(MakeReady(WithResult(k1, s, len), s), t, 0)
  }

  /** kernel_awaitevent by task t */
  function AwaitEvent(k: Kernel, t: nat): (k': Kernel)
    requires Sizes(k) && t < |k.tasks|
    ensures Sizes(k') && |k'.tasks| == |k.tasks|
  {
    var e := k.tasks[t].words.w1;
    if e >= NUM_EVENTS || e < 0 then WithResult(k, t, -1)
    else if k.events[e] != NO_TASK then WithResult(k, t, -4)
    else WithState(k, t, EventBlock).(events := k.events[e := t])
  }

  /** kernel_exit by task t */
  function Exit(k: Kernel, t: nat): (k': Kernel)
    requires Sizes(k) && t < |k.tasks|
    ensures Sizes(k') && |k'.tasks| == |k.tasks|
  {
    WithState(k, t, Zombie)
  }

  /** The end of kernel_handle_interrupt: event e fires with value v. */
  function Interrupt(k: Kernel, e: nat, v: int): (k': Kernel)
    requires Sizes(k) && e < NUM_EVENTS && (k.events[e] != NO_TASK ==> IsTask(k, k.events[e]))
    ensures Sizes(k') && |k'.tasks| == |k.tasks|
  {
    var t := k.events[e];
    var k1 := k.(events := k.events[e := NO_TASK]);
    if t == NO_TASK then k1 else MakeReady(WithResult(k1, t, v), t)
  }

  // ---- scheduling ----

  /** The first priority from p on with a task in its queue, NUM_PRIORITY if there is none. */
  function FirstReady(k: Kernel, p: nat): (q: nat)
    requires Sizes(k) && p <= NUM_PRIORITY
    ensures p <= q <= NUM_PRIORITY && (q < NUM_PRIORITY ==> k.ready[q] != [])
    ensures forall i :: p <= i < q ==> k.ready[i] == []
    decreases NUM_PRIORITY - p
  {
    if p == NUM_PRIORITY || k.ready[p] != [] then p else FirstReady(k, p + 1)
  }

  /** scheduler_get and scheduler_set_running, when some task is ready */
  function Schedule(k: Kernel): (k': Kernel)
    requires Sizes(k) && FirstReady(k, 0) < NUM_PRIORITY && k.ready[FirstReady(k, 0)][0] < |k.tasks|
    ensures Sizes(k') && |k'.tasks| == |k.tasks| && IsTask(k', k'.running)
  {
    var p := FirstReady(k, 0);
    var t := k.ready[p][0];
    WithState(k, t, Active).(ready := k.ready[p := k.ready[p][1..]], running := t)
  }

  // ---- one turn of kernel_runloop ----

  datatype Trap = HardwareInterrupt(event: nat, value: int) | SystemCall

  /** What the running task has done when it traps: the memory it leaves and its argument words. */
  datatype Turn = Turn(memory: Memory, words: Words, trap: Trap)

  function Used(k: Kernel, u: Turn): (k': Kernel)
    requires Sizes(k) && IsTask(k, k.running)
    ensures Sizes(k') && |k'.tasks| == |k.tasks|
  {
    WithTask(k, k.running, k.tasks[k.running].(words := u.words)).(memory := u.memory)
  }

  /** What the kernel relies on: a request in range; no message to oneself; Create only while there is
      room; an event number there is, and nobody waiting for it. */
  predicate CallOk(k: Kernel)
    requires Sizes(k) && IsTask(k, k.running)
  {
    var w := k.tasks[k.running].words;
    && Low(w.w0) < LAST_SYSCALL
    && (Low(w.w0) == SYSCALL_CREATE ==> 0 <= w.w1 < NUM_PRIORITY && |k.tasks| < NUM_MAX_TASK)
    && (Low(w.w0) == SYSCALL_SEND ==> High(w.w0) != k.running)
    && (Low(w.w0) == SYSCALL_AWAITEVENT ==> 0 <= w.w1 < NUM_EVENTS && k.events[w.w1] == NO_TASK)
  }

  predicate QueuesHoldTasks(k: Kernel)
  {
    && (forall p :: 0 <= p < |k.ready| ==> forall i :: 0 <= i < |k.ready[p]| ==> k.ready[p][i] < |k.tasks|)
    && (forall r :: 0 <= r < |k.mailbox| ==> forall i :: 0 <= i < |k.mailbox[r]| ==> k.mailbox[r][i] < |k.tasks|)
    && (forall e :: 0 <= e < |k.events| ==> k.events[e] == NO_TASK || IsTask(k, k.events[e]))
  }

  /** The system call of the running task; latestIdle is the kernel's idle measurement. */
  function Call(k: Kernel, latestIdle: int): (k': Kernel)
    requires Sizes(k) && IsTask(k, k.running) && CallOk(k) && QueuesHoldTasks(k)
    ensures Sizes(k')
  {
    var t := k.running;
    var w := k.tasks[t].words;
    var request := Low(w.w0);
    if request == SYSCALL_CREATE then
      MakeReady(WithResult(CreateTask(k, w.w1), t, |k.tasks|), t)
    else if request == SYSCALL_MYTID then MakeReady(WithResult(k, t, t), t)
    else if request == SYSCALL_MYPARENTTID then MakeReady(WithResult(k, t, k.tasks[t].parent), t)
    else if request == SYSCALL_PASS then MakeReady(k, t)
    else if request == SYSCALL_IDLE then MakeReady(WithResult(k, t, latestIdle), t)
    else if request == SYSCALL_REPLY then MakeReady(Reply(k, t), t)
    else if request == SYSCALL_SEND then Send(k, t)
    else if request == SYSCALL_RECEIVE then Receive(k, t)
    else if request == SYSCALL_EXIT then Exit(k, t)
    else AwaitEvent(k, t)
  }
}
