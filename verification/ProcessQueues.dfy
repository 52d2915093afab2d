/** The RTX process queues (os/initialization/ProcessQueue.c): one list per priority, and one each for processes
    blocked on memory, blocked on messages, and for interrupt processes. */
module ProcessQueues {
  import opened LinkedLists
  import opened Sequences

  const LOWEST: int := 4
  const BLOCKED_MEMORY: nat := 5
  const BLOCKED_MESSAGE: nat := 6
  const I_PROCESS_QUEUE: nat := 7
  const NUM_QUEUES: nat := 8
  const NUM_OF_PRIORITIES: nat := 5
  const I_PROCESS_PRIORITY: int := -1

  datatype PcbState = Ready | BlockedOnMemory | BlockedOnMessage | Running | Interrupted

  datatype Pcb = Pcb(pid: int, priority: int, state: PcbState, next: int)

  datatype PQueue = PQueue(begin: int, end: int)

  /** The queue append_process chooses. */
  function QueueFor(p: Pcb): int
  {
    if p.priority == I_PROCESS_PRIORITY then I_PROCESS_QUEUE
    else match p.state
      case BlockedOnMemory => BLOCKED_MEMORY
      case BlockedOnMessage => BLOCKED_MESSAGE
      case _ => p.priority
  }

  ghost function Nexts(pcbs: seq<Pcb>): (next: seq<int>)
    ensures |next| == |pcbs| && forall p :: 0 <= p < |pcbs| ==> next[p] == pcbs[p].next
  {
    seq(|pcbs|, p requires 0 <= p < |pcbs| => pcbs[p].next)
  }

  /** Queue i holds exactly the processes of qs[i], first to last. */
  ghost predicate QueueAt(pcbs: seq<Pcb>, queues: seq<PQueue>, qs: seq<seq<nat>>, i: nat)
    requires i < |queues| == |qs|
  {
    Chain(Nexts(pcbs), queues[i].begin, qs[i]) && queues[i].end == LastOf(qs[i]) && Distinct(qs[i])
  }

  /** No process is in two queues. */
  ghost predicate ApartAt(qs: seq<seq<nat>>, i: nat, j: nat)
    requires i < |qs| && j < |qs|
  {
    i != j ==> forall p :: p in qs[i] ==> p !in qs[j]
  }

  ghost predicate Represents(pcbs: seq<Pcb>, queues: seq<PQueue>, qs: seq<seq<nat>>)
  {
    && |queues| == |qs| == NUM_QUEUES
    && (forall i {:trigger QueueAt(pcbs, queues, qs, i)} :: 0 <= i < NUM_QUEUES ==> QueueAt(pcbs, queues, qs, i))
    && (forall i, j {:trigger ApartAt(qs, i, j)} :: 0 <= i < NUM_QUEUES && 0 <= j < NUM_QUEUES ==> ApartAt(qs, i, j))
  }

  ghost predicate InNone(qs: seq<seq<nat>>, p: nat)
  {
    forall i :: 0 <= i < |qs| ==> p !in qs[i]
  }

  // ---- changing one queue ----

  /** The other queues do not notice when one queue's processes, and processes in none, are relinked. */
  lemma OneQueueChanges(pcbs: seq<Pcb>, pcbs': seq<Pcb>, queues: seq<PQueue>, qs: seq<seq<nat>>, i: nat, queue: PQueue,
                        s: seq<nat>, p: nat)
    requires Represents(pcbs, queues, qs) && i < NUM_QUEUES && |pcbs| == |pcbs'|
    requires Chain(Nexts(pcbs'), queue.begin, s) && queue.end == LastOf(s) && Distinct(s)
    requires p in qs[i] || InNone(qs, p)
    requires forall x :: x in s ==> x in qs[i] || x == p
    requires forall x :: 0 <= x < |pcbs| && x !in qs[i] && x != p ==> pcbs'[x].next == pcbs[x].next
    ensures Represents(pcbs', queues[i := queue], qs[i := s])
  {
    var qs', queues' := qs[i := s], queues[i := queue];
    forall j | 0 <= j < NUM_QUEUES
      ensures QueueAt(pcbs', queues', qs', j)
    {
      assert QueueAt(pcbs, queues, qs, j) && ApartAt(qs, j, i);
      if j != i {
        forall x | 0 <= x < |pcbs| && x in qs[j]
          ensures Nexts(pcbs')[x] == Nexts(pcbs)[x]
        {
          assert ApartAt(qs, j, i);
        }
        ChainFrame(Nexts(pcbs), Nexts(pcbs'), queues[j].begin, qs[j]);
      }
    }
    forall j, k | 0 <= j < NUM_QUEUES && 0 <= k < NUM_QUEUES
      ensures ApartAt(qs', j, k)
    {
      assert ApartAt(qs, j, k) && ApartAt(qs, k, j);
      assert ApartAt(qs, i, k) && ApartAt(qs, j, i);
    }
  }

  // ---- which process is taken ----

  /** i is the place of the first process in s with this pid; |s| if there is none. */
  ghost predicate FirstWithPid(pcbs: seq<Pcb>, s: seq<nat>, pid: int, i: nat)
    requires forall j :: 0 <= j < |s| ==> s[j] < |pcbs|
  {
    i <= |s| && (i < |s| ==> pcbs[s[i]].pid == pid) && forall j :: 0 <= j < i ==> pcbs[s[j]].pid != pid
  }

  /** i is the place of the process that has waited longest among those of the best priority, LOWEST or
      better; |s| if there is no such process. */
  ghost predicate Foremost(pcbs: seq<Pcb>, s: seq<nat>, i: nat)
    requires forall j :: 0 <= j < |s| ==> s[j] < |pcbs|
  {
    && i <= |s|
    && (i < |s| ==> pcbs[s[i]].priority <= LOWEST
                    && (forall j :: 0 <= j < |s| ==> pcbs[s[i]].priority <= pcbs[s[j]].priority)
                    && (forall j :: 0 <= j < i ==> pcbs[s[i]].priority < pcbs[s[j]].priority))
    && (i == |s| ==> forall j :: 0 <= j < |s| ==> pcbs[s[j]].priority > LOWEST)
  }

  /** priority is the best among the processes of s, LOWEST if none is better. */
  ghost predicate BestPriority(pcbs: seq<Pcb>, s: seq<nat>, priority: int)
    requires forall j :: 0 <= j < |s| ==> s[j] < |pcbs|
  {
    && priority <= LOWEST && (forall j :: 0 <= j < |s| ==> priority <= pcbs[s[j]].priority)
    && (priority < LOWEST ==> exists j :: 0 <= j < |s| && pcbs[s[j]].priority == priority)
  }

  // ---- runs ----

  /** What the operations do to the queues: a process joins the end of one, or the process at some place
      of one leaves it (nobody does when there is no such place). */
  datatype Change = Join(queue: nat, process: nat) | Leave(queue: nat, place: nat)

  /** A list kept for one queue, after a change to that queue; a join puts v at the end. */
  function OneChanged(s: seq<nat>, c: Change, v: nat): (r: seq<nat>)
  {
    match c
    case Join(_, _) => s + [v]
    case Leave(_, i) => if i < |s| then Without(s, i) else s
  }

  /** Such a list for each queue. */
  function Changed(qs: seq<seq<nat>>, c: Change, v: nat): (r: seq<seq<nat>>)
    requires c.queue < |qs|
    ensures |r| == |qs|
  {
    qs[c.queue := OneChanged(qs[c.queue], c, v)]
  }

  /** The queues after a change. */
  function Step(qs: seq<seq<nat>>, c: Change): (r: seq<seq<nat>>)
    requires c.queue < |qs|
    ensures |r| == |qs|
  {
    Changed(qs, c, if c.Join? then c.process else 0)
  }

  predicate IsRun(cs: seq<Change>)
  {
    forall i :: 0 <= i < |cs| ==> cs[i].queue < NUM_QUEUES
  }

  /** The queues after a run from init_p_queue on. */
  function QueuesAfter(cs: seq<Change>): (qs: seq<seq<nat>>)
    requires IsRun(cs)
    ensures |qs| == NUM_QUEUES
  {
    if |cs| == 0 then seq(NUM_QUEUES, _ => []) else Step(QueuesAfter(cs[..|cs| - 1]), cs[|cs| - 1])
  }

  /** When each process in them joined: which change of the run that was. */
  function JoinTimes(cs: seq<Change>): (ts: seq<seq<nat>>)
    requires IsRun(cs)
    ensures |ts| == NUM_QUEUES
  {
    if |cs| == 0 then seq(NUM_QUEUES, _ => []) else Changed(JoinTimes(cs[..|cs| - 1]), cs[|cs| - 1], |cs| - 1)
  }

  /** arrival[j] is when the process at place j of the queue joined it. */
  ghost predicate InOrderOfArrival(s: seq<nat>, arrival: seq<nat>)
  {
    |arrival| == |s| && forall i, j :: 0 <= i < j < |s| ==> arrival[i] < arrival[j]
  }

  /** Taking out a process and appending one later keep the order of arrival. */
  lemma ArrivalKept(s: seq<nat>, arrival: seq<nat>, i: nat, p: nat, now: nat)
    requires InOrderOfArrival(s, arrival) && forall j :: 0 <= j < |arrival| ==> arrival[j] < now
    ensures i < |s| ==> InOrderOfArrival(Without(s, i), Without(arrival, i))
    ensures InOrderOfArrival(s + [p], arrival + [now])
  {
    if i < |s| {
      var r, a := Without(s, i), Without(arrival, i);
      forall j, k | 0 <= j < k < |r|
        ensures a[j] < a[k]
      {
        assert a[j] == arrival[if j < i then j else j + 1] && a[k] == arrival[if k < i then k else k + 1];
      }
    }
  }

  /** Each of these times is that of a change by which just this process joined just this queue. */
  ghost predicate Joined(cs: seq<Change>, q: nat, s: seq<nat>, times: seq<nat>)
  {
    |times| == |s| && forall j :: 0 <= j < |s| ==> times[j] < |cs| && cs[times[j]] == Join(q, s[j])
  }

  lemma JoinedKept(cs: seq<Change>, q: nat, s: seq<nat>, times: seq<nat>)
    requires |cs| > 0 && Joined(cs[..|cs| - 1], q, s, times)
    ensures Joined(cs, q, s, times)
  {
  }

  /** One more change, to queue q. */
  lemma ChangeInOrder(cs: seq<Change>, q: nat, s: seq<nat>, times: seq<nat>, c: Change, p: nat)
    requires |cs| > 0 && c == cs[|cs| - 1] && c.queue == q && (c.Join? ==> c.process == p)
    requires InOrderOfArrival(s, times) && Joined(cs[..|cs| - 1], q, s, times)
    ensures var s', times' := OneChanged(s, c, p), OneChanged(times, c, |cs| - 1);
            InOrderOfArrival(s', times') && Joined(cs, q, s', times')
  {
    JoinedKept(cs, q, s, times);
    ArrivalKept(s, times, if c.Leave? then c.place else 0, p, |cs| - 1);
  }

  /** After every run each queue is in order of arrival. */
  lemma {:induction false} RunInOrder(cs: seq<Change>, q: nat)
    requires IsRun(cs) && q < NUM_QUEUES
    ensures var s, times := QueuesAfter(cs)[q], JoinTimes(cs)[q]; InOrderOfArrival(s, times) && Joined(cs, q, s, times)
    decreases |cs|
  {
    if |cs| > 0 {
      var cs', c := cs[..|cs| - 1], cs[|cs| - 1];
      RunInOrder(cs', q);
      if c.queue == q {
        ChangeInOrder(cs, q, QueuesAfter(cs')[q], JoinTimes(cs')[q], c, if c.Join? then c.process else 0);
      } else {
        JoinedKept(cs, q, QueuesAfter(cs')[q], JoinTimes(cs')[q]);
      }
    }
  }

  /** So after every run the process next_blocked_memory_process takes joined its queue before all others
      of its priority that are there. */
  lemma ForemostWaitedLongest(cs: seq<Change>, pcbs: seq<Pcb>, i: nat)
    requires IsRun(cs)
    requires var s := QueuesAfter(cs)[BLOCKED_MEMORY];
             (forall j :: 0 <= j < |s| ==> s[j] < |pcbs|) && Foremost(pcbs, s, i) && i < |s|
    ensures var s, times := QueuesAfter(cs)[BLOCKED_MEMORY], JoinTimes(cs)[BLOCKED_MEMORY];
            && Joined(cs, BLOCKED_MEMORY, s, times)
            && forall j :: 0 <= j < |s| && j != i && pcbs[s[j]].priority == pcbs[s[i]].priority ==> times[i] < times[j]
  {
    RunInOrder(cs, BLOCKED_MEMORY);
  }

  // ---- everybody where he belongs ----

  /** v is one of the processes queue i is for: interrupt processes, whatever their state, have their own queue;
      so have those that wait for memory and those that wait for a message; the others are kept by priority. */
  ghost predicate BelongsIn(v: Pcb, i: int)
  {
    && (i == I_PROCESS_QUEUE <==> v.priority == I_PROCESS_PRIORITY)
    && (i == BLOCKED_MEMORY <==> v.priority != I_PROCESS_PRIORITY && v.state == BlockedOnMemory)
    && (i == BLOCKED_MESSAGE <==> v.priority != I_PROCESS_PRIORITY && v.state == BlockedOnMessage)
    && (0 <= i < NUM_OF_PRIORITIES ==> v.priority == i)
  }

  ghost predicate InPlaceAt(pcbs: seq<Pcb>, qs: seq<seq<nat>>, i: nat, j: nat)
  {
    i < |qs| && j < |qs[i]| ==> qs[i][j] < |pcbs| && BelongsIn(pcbs[qs[i][j]], i)
  }

  ghost predicate InPlace(pcbs: seq<Pcb>, qs: seq<seq<nat>>)
  {
    |qs| == NUM_QUEUES && forall i, j {:trigger InPlaceAt(pcbs, qs, i, j)} :: InPlaceAt(pcbs, qs, i, j)
  }

  /** Joining the queue append_process chooses and leaving a queue keep every process where it belongs. */
  lemma ChangeKeepsPlaces(pcbs: seq<Pcb>, pcbs': seq<Pcb>, qs: seq<seq<nat>>, c: Change)
    requires InPlace(pcbs, qs) && c.queue < NUM_QUEUES && |pcbs'| == |pcbs|
    requires forall x :: 0 <= x < |pcbs| ==> pcbs'[x] == pcbs[x].(next := pcbs'[x].next)
    requires c.Join? ==> c.process < |pcbs| && c.queue == QueueFor(pcbs[c.process])
                         && I_PROCESS_PRIORITY <= pcbs[c.process].priority < NUM_OF_PRIORITIES
    ensures InPlace(pcbs', Step(qs, c))
  {
    var qs' := Step(qs, c);
    forall i: nat, j: nat
      ensures InPlaceAt(pcbs', qs', i, j)
    {
      if i < |qs| && j < |qs'[i]| {
        var k := if i == c.queue && c.Leave? && c.place <= j && c.place < |qs[i]| then j + 1 else j;
        assert InPlaceAt(pcbs, qs, i, k);
      }
    }
  }

  /** So the process next_ready_process takes is of the best priority of all those that could run. */
  lemma BestIsTaken(pcbs: seq<Pcb>, qs: seq<seq<nat>>, p: nat, i: nat, j: nat)
    requires InPlace(pcbs, qs) && p < NUM_OF_PRIORITIES && qs[p] != [] && forall q :: 0 <= q < p ==> qs[q] == []
    requires i < NUM_QUEUES && j < |qs[i]| && qs[i][j] < |pcbs| && pcbs[qs[i][j]].priority != I_PROCESS_PRIORITY
    requires pcbs[qs[i][j]].state != BlockedOnMemory && pcbs[qs[i][j]].state != BlockedOnMessage
    ensures qs[p][0] < |pcbs| && pcbs[qs[p][0]].priority == p <= pcbs[qs[i][j]].priority
    ensures pcbs[qs[p][0]].state != BlockedOnMemory && pcbs[qs[p][0]].state != BlockedOnMessage
  {
    assert InPlaceAt(pcbs, qs, p, 0) && InPlaceAt(pcbs, qs, i, j);
  }

  class ProcessTable {
    const pcbs: array<Pcb>
    const priorityQueues: array<PQueue>

    /** init_p_queue */
    constructor (pcbs: array<Pcb>)
      ensures this.pcbs == pcbs && Implements(QueuesAfter([])) && fresh(priorityQueues)
    {
      this.pcbs := pcbs;
      priorityQueues := new PQueue[NUM_QUEUES](_ => PQueue(NONE, NONE));
    }

    ghost predicate Implements(qs: seq<seq<nat>>)
      reads pcbs, priorityQueues
    {
      Represents(pcbs[..], priorityQueues[..], qs)
    }

    lemma Members(qs: seq<seq<nat>>, i: nat)
      requires Implements(qs) && i < NUM_QUEUES
      ensures i < |qs| && i < priorityQueues.Length && Distinct(qs[i])
      ensures (forall j :: 0 <= j < |qs[i]| ==> qs[i][j] < pcbs.Length) && forall p :: p in qs[i] ==> p < pcbs.Length
    {
      assert QueueAt(pcbs[..], priorityQueues[..], qs, i);
      ChainInRange(Nexts(pcbs[..]), priorityQueues[i].begin, qs[i]);
    }

    /** append_process: the process joins the end of the queue for its state and priority. */
    method AppendProcess(process: nat, ghost qs: seq<seq<nat>>)
      requires Implements(qs) && process < pcbs.Length && InNone(qs, process)
      requires 0 <= QueueFor(pcbs[process]) < NUM_QUEUES
      modifies pcbs, priorityQueues
      ensures Implements(Step(qs, Join(QueueFor(old(pcbs[process])), process)))
      ensures forall p :: 0 <= p < pcbs.Length ==> pcbs[p] == old(pcbs[p]).(next := pcbs[p].next)
    {
      var q := QueueFor(pcbs[process]);
      ghost var start, s := pcbs[..], qs[q];
      Members(qs, q);
      assert QueueAt(start, priorityQueues[..], qs, q);
      var queue := priorityQueues[q];
      pcbs[process] := pcbs[process].(next := NONE);
      if queue.begin == NONE {
        priorityQueues[q] := PQueue(process, process);
      } else {
        assert s[|s| - 1] in s;
        pcbs[queue.end] := pcbs[queue.end].(next := process);
        priorityQueues[q] := PQueue(queue.begin, process);
      }
      ChainAppend(Nexts(start), Nexts(pcbs[..]), queue.begin, s, process);
      AppendDistinct(s, process);
      OneQueueChanges(start, pcbs[..], old(priorityQueues[..]), qs, q, priorityQueues[q], s + [process], process);
      assert priorityQueues[..] == old(priorityQueues[..])[q := priorityQueues[q]];
    }

    /** Taking the process at place i out of queue q, its predecessor being prev. */
    method Unlink(q: nat, prev: int, cur: nat, ghost qs: seq<seq<nat>>, ghost i: nat)
      requires Implements(qs) && q < NUM_QUEUES && i < |qs[q]| && cur == qs[q][i]
               && prev == if i == 0 then NONE else qs[q][i - 1]
      modifies pcbs, priorityQueues
      ensures Implements(Step(qs, Leave(q, i))) && cur < pcbs.Length && pcbs[cur].next == NONE
      ensures forall p :: 0 <= p < pcbs.Length ==> pcbs[p] == old(pcbs[p]).(next := pcbs[p].next)
    {
      ghost var start, s := pcbs[..], qs[q];
      Members(qs, q);
      assert QueueAt(start, priorityQueues[..], qs, q);
      assert LinkAt(Nexts(start), s, i) && s[i] in s;
      WithoutKeeps(s, i);
      var queue := priorityQueues[q];
      var next := pcbs[cur].next;
      if prev == NONE {
        priorityQueues[q] := PQueue(next, if next == NONE then NONE else queue.end);
      } else {
        assert s[i - 1] in s;
        pcbs[prev] := pcbs[prev].(next := next);
        priorityQueues[q] := PQueue(queue.begin, if queue.end == cur then prev else queue.end);
      }
      pcbs[cur] := pcbs[cur].(next := NONE);
      ChainWithout(Nexts(start), Nexts(pcbs[..]), queue.begin, s, i);
      LastWithout(s, i);
      OneQueueChanges(start, pcbs[..], old(priorityQueues[..]), qs, q, priorityQueues[q], Without(s, i), cur);
      assert priorityQueues[..] == old(priorityQueues[..])[q := priorityQueues[q]];
    }

    /** pull_process. Its guard against interrupt processes compares the queue number with a priority,
        so it never stops anybody from pulling queue I_PROCESS_QUEUE. */
    method PullProcess(q: int, ghost qs: seq<seq<nat>>) returns (result: int)
      requires Implements(qs) && (q == I_PROCESS_PRIORITY || 0 <= q < NUM_QUEUES)
      modifies pcbs, priorityQueues
      ensures q == I_PROCESS_PRIORITY || qs[q] == [] ==> result == NONE && Implements(qs)
      ensures q != I_PROCESS_PRIORITY && qs[q] != [] ==>
                result == qs[q][0] && result < pcbs.Length && pcbs[result].next == NONE
                  && Implements(Step(qs, Leave(q, 0)))
    {
      if q == I_PROCESS_PRIORITY {
        return NONE;
      }
      assert QueueAt(pcbs[..], priorityQueues[..], qs, q);
      result := priorityQueues[q].begin;
      if result == NONE {
        return NONE;
      }
      Unlink(q, NONE, result, qs, 0);
    }

    /** grab_pcb_from_single_queue: the first process with this pid leaves the queue. */
    method GrabPcb(q: nat, pid: int, ghost qs: seq<seq<nat>>) returns (result: int, ghost i: nat)
      requires Implements(qs) && q < NUM_QUEUES
      modifies pcbs, priorityQueues
      ensures forall j :: 0 <= j < |qs[q]| ==> qs[q][j] < pcbs.Length
      ensures FirstWithPid(old(pcbs[..]), qs[q], pid, i)
      ensures Implements(Step(qs, Leave(q, i)))
      ensures if i == |qs[q]| then result == NONE else result == qs[q][i] && pcbs[result].next == NONE
    {
      Members(qs, q);
      assert QueueAt(pcbs[..], priorityQueues[..], qs, q);
      var prev, cur := NONE, priorityQueues[q].begin;
      i := 0;
      while cur != NONE && pcbs[cur].pid != pid
        invariant i <= |qs[q]| && cur == FirstOf(qs[q][i..]) && prev == (if i == 0 then NONE else qs[q][i - 1])
        invariant forall j :: 0 <= j < i ==> pcbs[qs[q][j]].pid != pid
        decreases |qs[q]| - i
      {
        assert LinkAt(Nexts(pcbs[..]), qs[q], i);
        prev := cur;
        cur := pcbs[cur].next;
        i := i + 1;
      }
      result := cur;
      if cur != NONE {
        Unlink(q, prev, cur, qs, i);
      } else {
        assert Step(qs, Leave(q, i)) == qs;
      }
    }

    /** The first loop of next_blocked_memory_process. */
    method BestBlocked(ghost qs: seq<seq<nat>>) returns (priority: int)
      requires Implements(qs)
      ensures forall j :: 0 <= j < |qs[BLOCKED_MEMORY]| ==> qs[BLOCKED_MEMORY][j] < pcbs.Length
      ensures BestPriority(pcbs[..], qs[BLOCKED_MEMORY], priority)
    {
      Members(qs, BLOCKED_MEMORY);
      assert QueueAt(pcbs[..], priorityQueues[..], qs, BLOCKED_MEMORY);
      ghost var s, i := qs[BLOCKED_MEMORY], 0;
      priority := LOWEST;
      var cur := priorityQueues[BLOCKED_MEMORY].begin;
      while cur != NONE
        invariant i <= |s| && cur == FirstOf(s[i..]) && BestPriority(pcbs[..], s[..i], priority)
        decreases |s| - i
      {
        assert LinkAt(Nexts(pcbs[..]), s, i);
        if pcbs[cur].priority < priority {
          priority := pcbs[cur].priority;
        }
        assert s[..i + 1] == s[..i] + [s[i]] && s[..i + 1][i] == s[i];
        cur := pcbs[cur].next;
        i := i + 1;
      }
      assert s[..i] == s;
    }

    /** next_blocked_memory_process: of the processes blocked on memory, the one that has waited longest
        among those of the best priority leaves the queue. */
    method NextBlockedMemoryProcess(ghost qs: seq<seq<nat>>) returns (result: int, ghost i: nat)
      requires Implements(qs)
      modifies pcbs, priorityQueues
      ensures forall j :: 0 <= j < |qs[BLOCKED_MEMORY]| ==> qs[BLOCKED_MEMORY][j] < pcbs.Length
      ensures Foremost(old(pcbs[..]), qs[BLOCKED_MEMORY], i)
      ensures Implements(Step(qs, Leave(BLOCKED_MEMORY, i)))
      ensures if i == |qs[BLOCKED_MEMORY]| then result == NONE
              else result == qs[BLOCKED_MEMORY][i] && pcbs[result].next == NONE
    {
      var priority := BestBlocked(qs);
      ghost var s := qs[BLOCKED_MEMORY];
      Members(qs, BLOCKED_MEMORY);
      assert QueueAt(pcbs[..], priorityQueues[..], qs, BLOCKED_MEMORY);
      var prev, cur := NONE, priorityQueues[BLOCKED_MEMORY].begin;
      i := 0;
      while cur != NONE && pcbs[cur].priority != priority
        invariant i <= |s| && cur == FirstOf(s[i..]) && prev == (if i == 0 then NONE else s[i - 1])
        invariant forall j :: 0 <= j < i ==> pcbs[s[j]].priority != priority
        decreases |s| - i
      {
        assert LinkAt(Nexts(pcbs[..]), s, i);
        prev := cur;
        cur := pcbs[cur].next;
        i := i + 1;
      }
      result := cur;
      if cur != NONE {
        Unlink(BLOCKED_MEMORY, prev, cur, qs, i);
      } else {
        assert Step(qs, Leave(BLOCKED_MEMORY, i)) == qs;
      }
    }

    /** next_ready_process: the first process of the best priority that has any. */
    method NextReadyProcess(ghost qs: seq<seq<nat>>) returns (result: int, ghost p: nat)
      requires Implements(qs)
      modifies pcbs, priorityQueues
      ensures p <= NUM_OF_PRIORITIES && forall q :: 0 <= q < p ==> qs[q] == []
      ensures if p == NUM_OF_PRIORITIES then result == NONE && Implements(qs)
              else qs[p] != [] && result == qs[p][0] && Implements(Step(qs, Leave(p, 0)))
    {
      for i := 0 to NUM_OF_PRIORITIES
        invariant Implements(qs) && forall q :: 0 <= q < i ==> qs[q] == []
      {
        assert QueueAt(pcbs[..], priorityQueues[..], qs, i);
        if priorityQueues[i].begin != NONE {
          result := PullProcess(i, qs);
          p := i;
          return;
        }
      }
      result, p := NONE, NUM_OF_PRIORITIES;
    }
  }

  lemma LastWithout(s: seq<nat>, i: nat)
    requires i < |s| && Distinct(s)
    ensures LastOf(Without(s, i)) == if i == |s| - 1 then (if i == 0 then NONE else s[i - 1]) else s[|s| - 1]
    ensures s[|s| - 1] == s[i] <==> i == |s| - 1
    ensures After(s, i) == NONE <==> i == |s| - 1
  {
  }
}
