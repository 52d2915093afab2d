/** The timer process's mailbox in place (os/message_passing/Mailbox.c, os/timer/timer0.c): memory blocks
    linked through their own headers. */
module MailInPlace {
  import opened DelayedMail
  import opened TimedQueues
  import opened LinkedLists
  import opened Sequences

  datatype Header = Header(senderID: int, destinationID: int, delayTime: nat, firingTime: nat, delayed: bool,
                           delaySenderID: int, next: int)

  ghost function Nexts(blocks: seq<Header>): (next: seq<int>)
    ensures |next| == |blocks| && forall b :: 0 <= b < |blocks| ==> next[b] == blocks[b].next
  {
    seq(|blocks|, b requires 0 <= b < |blocks| => blocks[b].next)
  }

  ghost function Blocks(q: seq<Mail>): (s: seq<nat>)
    ensures |s| == |q| && forall i :: 0 <= i < |q| ==> s[i] == q[i].item.block
  {
    seq(|q|, i requires 0 <= i < |q| => q[i].item.block)
  }

  ghost predicate HoldsAt(blocks: seq<Header>, q: seq<Mail>, i: nat)
    requires i < |q|
  {
    q[i].item.block < |blocks| && blocks[q[i].item.block].destinationID == q[i].item.destination
      && blocks[q[i].item.block].firingTime == q[i].time
  }

  /** Following the links from head visits the blocks of q in order, each once. */
  ghost predicate Represents(blocks: seq<Header>, head: int, q: seq<Mail>)
  {
    && Chain(Nexts(blocks), head, Blocks(q)) && Distinct(Blocks(q))
    && forall i {:trigger HoldsAt(blocks, q, i)} :: 0 <= i < |q| ==> HoldsAt(blocks, q, i)
  }

  ghost function MailOf(blocks: seq<Header>, b: nat): Mail
    requires b < |blocks|
  {
    Timed(blocks[b].firingTime, Parcel(b, blocks[b].destinationID))
  }

  lemma BlocksOfSum(q: seq<Mail>, m: Mail, i: nat)
    requires i <= |q|
    ensures Blocks(q[..i] + [m] + q[i..]) == Blocks(q)[..i] + [m.item.block] + Blocks(q)[i..]
  {
  }

  /** Place i of q is where a mail for this time belongs. */
  ghost predicate PlaceFor(q: seq<Mail>, time: nat, i: nat)
  {
    i <= |q| && (forall j :: 0 <= j < i ==> q[j].time <= time) && (i < |q| ==> time < q[i].time)
  }

  lemma InsertBehind(q: seq<Mail>, m: Mail, r: seq<Mail>)
    requires |q| > 0 && q[0].time <= m.time && r == InsertByTime(q[1..], m)
    ensures InsertByTime(q, m) == [q[0]] + r
  {
  }

  /** Where the walk of an insertion stops is where InsertByTime puts the mail. */
  lemma {:induction false} InsertSplits(q: seq<Mail>, m: Mail, i: nat)
    requires PlaceFor(q, m.time, i)
    ensures InsertByTime(q, m) == q[..i] + [m] + q[i..]
  {
    if i == 0 {
      assert q[..0] + [m] + q[0..] == [m] + q;
    } else {
      var rest := q[1..];
      InsertSplits(rest, m, i - 1);
      InsertBehind(q, m, InsertByTime(rest, m));
      assert [q[0]] + (rest[..i - 1] + [m] + rest[i - 1..]) == q[..i] + [m] + q[i..];
    }
  }

  /** The headers after linking block b in behind i mails. */
  function Linked(blocks: seq<Header>, b: nat, previous: int, current: int): (r: seq<Header>)
    requires b < |blocks| && (previous == NONE || 0 <= previous < |blocks|)
    ensures |r| == |blocks|
  {
    var r := blocks[b := blocks[b].(next := current)];
    if previous == NONE then r else r[previous := r[previous].(next := b)]
  }

  lemma InsertRepresents(blocks: seq<Header>, head: int, q: seq<Mail>, b: nat, i: nat)
    requires Represents(blocks, head, q) && b < |blocks| && b !in Blocks(q) && i <= |q|
    ensures var previous, current := (if i == 0 then NONE else q[i - 1].item.block), FirstOf(Blocks(q)[i..]);
            && (i > 0 ==> q[i - 1].item.block < |blocks|)
            && Represents(Linked(blocks, b, previous, current), if i == 0 then b else head,
                          q[..i] + [MailOf(blocks, b)] + q[i..])
  {
    var s, m := Blocks(q), MailOf(blocks, b);
    var previous, current := if i == 0 then NONE else s[i - 1], FirstOf(s[i..]);
    ChainInRange(Nexts(blocks), head, s);
    ChainInsert(Nexts(blocks), head, s, b, i);
    InsertDistinct(s, b, i);
    BlocksOfSum(q, m, i);
    var blocks', q' := Linked(blocks, b, previous, current), q[..i] + [m] + q[i..];
    assert s[0..] == s;
    assert Nexts(blocks') == if i == 0 then Nexts(blocks)[b := head] else Nexts(blocks)[b := current][s[i - 1] := b];
    forall j | 0 <= j < |q'|
      ensures HoldsAt(blocks', q', j)
    {
      if j < i {
        assert HoldsAt(blocks, q, j) && s[j] in s;
      } else if j > i {
        assert HoldsAt(blocks, q, j - 1) && s[j - 1] in s;
      }
    }
  }

  lemma TakeRepresents(blocks: seq<Header>, head: int, q: seq<Mail>)
    requires Represents(blocks, head, q) && |q| > 0
    ensures 0 <= head < |blocks| && head == q[0].item.block && Represents(blocks, blocks[head].next, q[1..])
  {
    ChainTail(Nexts(blocks), head, Blocks(q));
    TailKeeps(Blocks(q));
    assert Blocks(q[1..]) == Blocks(q)[1..];
    forall i | 0 <= i < |q[1..]|
      ensures HoldsAt(blocks, q[1..], i)
    {
      var n := i + 1;
      assert HoldsAt(blocks, q, n);
    }
  }

  /** Changing blocks that are not in the mailbox. */
  lemma OthersChange(blocks: seq<Header>, blocks': seq<Header>, head: int, q: seq<Mail>)
    requires Represents(blocks, head, q) && |blocks| == |blocks'|
    requires forall b :: 0 <= b < |blocks| && b in Blocks(q) ==> blocks'[b] == blocks[b]
    ensures Represents(blocks', head, q)
  {
    ChainFrame(Nexts(blocks), Nexts(blocks'), head, Blocks(q));
    forall i | 0 <= i < |q|
      ensures HoldsAt(blocks', q, i)
    {
      assert HoldsAt(blocks, q, i) && Blocks(q)[i] in Blocks(q);
    }
  }

  class Mailbox {
    const blocks: array<Header>
    var m_mail: int

    constructor (blocks: array<Header>)
      ensures this.blocks == blocks && Implements([])
    {
      this.blocks := blocks;
      m_mail := NONE;
    }

    ghost predicate Implements(q: seq<Mail>)
      reads this, blocks
    {
      Represents(blocks[..], m_mail, q)
    }

    /** Mailbox_putMailIn: behind everything else. running is the process that calls it. */
    method PutMailIn(mail: nat, running: int, ghost q: seq<Mail>)
      requires Implements(q) && mail < blocks.Length && mail !in Blocks(q)
      modifies `m_mail, blocks
      ensures Implements(q + [MailOf(old(blocks[..]), mail)])
      ensures blocks[mail] == old(blocks[mail]).(senderID := running, next := NONE)
      ensures forall b :: b in Blocks(q) && b < blocks.Length ==> blocks[b] == old(blocks[b]).(next := blocks[b].next)
      ensures forall b :: 0 <= b < blocks.Length && b != mail && b !in Blocks(q) ==> blocks[b] == old(blocks[b])
    {
      ghost var start := blocks[..];
      blocks[mail] := blocks[mail].(senderID := running);
      OthersChange(start, blocks[..], m_mail, q);
      ghost var now := blocks[..];
      blocks[mail] := blocks[mail].(next := NONE);
      var current, previous := m_mail, NONE;
      ghost var i := 0;
      ChainInRange(Nexts(now), m_mail, Blocks(q));
      while current != NONE
        invariant i <= |q| && current == FirstOf(Blocks(q)[i..])
        invariant previous == (if i == 0 then NONE else q[i - 1].item.block)
        decreases |q| - i
      {
        assert LinkAt(Nexts(now), Blocks(q), i) && Blocks(q)[i] in Blocks(q);
        previous := current;
        current := blocks[current].next;
        i := i + 1;
      }
      InsertRepresents(now, m_mail, q, mail, i);
      if previous == NONE {
        m_mail := mail;
      } else {
        blocks[previous] := blocks[previous].(next := mail);
      }
      assert blocks[..] == Linked(now, mail, previous, NONE);
      assert q[..i] + [MailOf(now, mail)] + q[i..] == q + [MailOf(start, mail)];
    }

    /** Mailbox_getMailOut: the first block and who sent it; NONE if there is no mail. */
    method GetMailOut(ghost q: seq<Mail>) returns (mail: int, senderID: int)
      requires Implements(q)
      modifies `m_mail
      ensures if q == [] then mail == NONE && Implements(q)
              else mail == q[0].item.block && mail < blocks.Length && Implements(q[1..])
                   && senderID == (if blocks[mail].delayed then blocks[mail].delaySenderID else blocks[mail].senderID)
    {
      senderID := NONE;
      if m_mail == NONE {
        return NONE, senderID;
      }
      TakeRepresents(blocks[..], m_mail, q);
      mail := m_mail;
      senderID := if blocks[mail].delayed then blocks[mail].delaySenderID else blocks[mail].senderID;
      m_mail := blocks[m_mail].next;
    }

    /** Writing message between previous and the rest, where it belongs. */
    method LinkIn(message: nat, previous: int, ghost q: seq<Mail>, ghost i: nat)
      requires Implements(q) && message < blocks.Length && message !in Blocks(q)
      requires PlaceFor(q, blocks[message].firingTime, i) && previous == if i == 0 then NONE else q[i - 1].item.block
      modifies `m_mail, blocks
      ensures Implements(InsertByTime(q, MailOf(old(blocks[..]), message)))
      ensures forall b :: 0 <= b < blocks.Length && b != message && b !in Blocks(q) ==> blocks[b] == old(blocks[b])
    {
      InsertSplits(q, MailOf(blocks[..], message), i);
      InsertRepresents(blocks[..], m_mail, q, message, i);
      ghost var blocks' := Linked(blocks[..], message, previous, FirstOf(Blocks(q)[i..]));
      assert i > 0 ==> LinkAt(Nexts(blocks[..]), Blocks(q), i - 1);
      assert i > 0 ==> Blocks(q)[i - 1] in Blocks(q);
      assert Blocks(q)[0..] == Blocks(q);
      if previous == NONE {
        blocks[message] := blocks[message].(next := m_mail);
        m_mail := message;
      } else {
        var next := blocks[previous].next;
        blocks[previous] := blocks[previous].(next := message);
        blocks[message] := blocks[message].(next := next);
      }
      assert blocks[..] == blocks';
    }

    /** Mailbox_putMailIn, where that is the right place. */
    method PutLast(message: nat, running: int, ghost q: seq<Mail>)
      requires Implements(q) && message < blocks.Length && message !in Blocks(q)
      requires PlaceFor(q, blocks[message].firingTime, |q|)
      modifies `m_mail, blocks
      ensures Implements(InsertByTime(q, MailOf(old(blocks[..]), message)))
      ensures forall b :: 0 <= b < blocks.Length && b != message && b !in Blocks(q) ==> blocks[b] == old(blocks[b])
    {
      ghost var m := MailOf(blocks[..], message);
      InsertSplits(q, m, |q|);
      assert q[..|q|] + [m] + q[|q|..] == q + [m];
      PutMailIn(message, running, q);
    }

    /** Mailbox_insertMailByTime: kept sorted by firing time, behind the mails of the same time. */
    method InsertMailByTime(message: nat, running: int, ghost q: seq<Mail>)
      requires Implements(q) && message < blocks.Length && message !in Blocks(q)
      modifies `m_mail, blocks
      ensures Implements(InsertByTime(q, MailOf(old(blocks[..]), message)))
      ensures forall b :: 0 <= b < blocks.Length && b != message && b !in Blocks(q) ==> blocks[b] == old(blocks[b])
    {
      var time := blocks[message].firingTime;
      var cur := m_mail;
      if cur == NONE {
        PutLast(message, running, q);
        return;
      }
      ChainInRange(Nexts(blocks[..]), m_mail, Blocks(q));
      assert HoldsAt(blocks[..], q, 0) && LinkAt(Nexts(blocks[..]), Blocks(q), 0);
      if time < blocks[cur].firingTime {
        LinkIn(message, NONE, q, 0);
        return;
      }
      ghost var i := 0;
      while blocks[cur].next != NONE
        invariant i < |q| && cur == q[i].item.block && cur < blocks.Length
        invariant blocks[cur].next == FirstOf(Blocks(q)[i + 1..])
        invariant forall j :: 0 <= j <= i ==> q[j].time <= time
        decreases |q| - i
      {
        assert HoldsAt(blocks[..], q, i + 1) && LinkAt(Nexts(blocks[..]), Blocks(q), i + 1);
        if time < blocks[blocks[cur].next].firingTime {
          LinkIn(message, cur, q, i + 1);
          return;
        }
        cur := blocks[cur].next;
        i := i + 1;
      }
      PutLast(message, running, q);
    }
  }

  // ---- the timer process ----

  /** Block number i of those received is what ins says, and is not in the queue. */
  ghost predicate ArrivedAt(blocks: seq<Header>, incoming: seq<nat>, ins: seq<Incoming>, i: nat)
    requires i < |incoming| == |ins|
  {
    incoming[i] < |blocks|
      && var h := blocks[incoming[i]]; ins[i] == Incoming(incoming[i], h.destinationID, h.delayTime, h.delayed)
  }

  ghost predicate Arrived(blocks: seq<Header>, incoming: seq<nat>, ins: seq<Incoming>, q: seq<Mail>, from: nat)
  {
    && |incoming| == |ins| && Distinct(incoming)
    && (forall i {:trigger ArrivedAt(blocks, incoming, ins, i)} :: from <= i < |incoming| ==>
        ArrivedAt(blocks, incoming, ins, i))
    && forall i :: from <= i < |incoming| ==> incoming[i] !in Blocks(q)
  }

  /** The queue after one received mail. */
  function TakenIn(q: seq<Mail>, now: nat, mail: Incoming): seq<Mail>
  {
    if mail.delayed then InsertByTime(q, Timed(now + mail.delay, Parcel(mail.block, mail.destination))) else q
  }

  /** The queue after the first i mails of a tick. */
  ghost function TakenInUpTo(q: seq<Mail>, now: nat, ins: seq<Incoming>, i: nat): seq<Mail>
    requires i <= |ins|
  {
    InsertAll(q, Kept(now, ins[..i]))
  }

  lemma TakenInNext(q: seq<Mail>, now: nat, ins: seq<Incoming>, i: nat)
    requires i < |ins|
    ensures TakenInUpTo(q, now, ins, i + 1) == TakenIn(TakenInUpTo(q, now, ins, i), now, ins[i])
  {
    var front := Kept(now, ins[..i]);
    assert ins[..i + 1][..i] == ins[..i];
    if ins[i].delayed {
      var m := Timed(now + ins[i].delay, Parcel(ins[i].block, ins[i].destination));
      assert (front + [m])[..|front|] == front;
    } else {
      assert front + [] == front;
    }
  }

  lemma TakenInBlocks(q: seq<Mail>, now: nat, mail: Incoming)
    ensures forall b :: b in Blocks(TakenIn(q, now, mail)) ==> b == mail.block || b in Blocks(q)
  {
    if mail.delayed {
      var m := Timed(now + mail.delay, Parcel(mail.block, mail.destination));
      var r := InsertByTime(q, m);
      InsertMembers(q, m);
      forall b | b in Blocks(r)
        ensures b == m.item.block || b in Blocks(q)
      {
        var i :| 0 <= i < |Blocks(r)| && Blocks(r)[i] == b;
        assert r[i] in r;
        if r[i] in q {
          var j :| 0 <= j < |q| && q[j] == r[i];
          assert Blocks(q)[j] == b;
        }
      }
    }
  }

  /** A mail as sent: to whom, and which block. */
  datatype Sent = Sent(destination: int, block: nat)

  function AsSent(ms: seq<Mail>): (r: seq<Sent>)
    ensures |r| == |ms| && forall i :: 0 <= i < |ms| ==> r[i] == Sent(ms[i].item.destination, ms[i].item.block)
  {
    seq(|ms|, i requires 0 <= i < |ms| => Sent(ms[i].item.destination, ms[i].item.block))
  }

  lemma OneMoreSent(q: seq<Mail>, n: nat)
    requires n < |q|
    ensures q[n..][1..] == q[n + 1..] && q[n..][0] == q[n]
    ensures AsSent(q[..n + 1]) == AsSent(q[..n]) + [Sent(q[n].item.destination, q[n].item.block)]
  {
  }

  class TimerProcess {
    const delaySendQueue: Mailbox
    const pid: int
    var currentTime: nat

    constructor (blocks: array<Header>, pid: int)
      ensures Implements(Post(0, [])) && delaySendQueue.blocks == blocks && fresh(delaySendQueue)
    {
      var queue := new Mailbox(blocks);
      delaySendQueue := queue;
      this.pid := pid;
      currentTime := 0;
    }

    ghost predicate Implements(p: Post)
      reads this, delaySendQueue, delaySendQueue.blocks
    {
      currentTime == p.now && delaySendQueue.Implements(p.queue)
    }

    /** Taking in one received block. */
    method TakeIn(b: nat, ghost q: seq<Mail>, ghost mail: Incoming)
      requires delaySendQueue.Implements(q) && b < delaySendQueue.blocks.Length && b !in Blocks(q)
      requires var h := delaySendQueue.blocks[b]; mail == Incoming(b, h.destinationID, h.delayTime, h.delayed)
      modifies delaySendQueue, delaySendQueue.blocks
      ensures delaySendQueue.Implements(TakenIn(q, currentTime, mail))
      ensures forall x :: 0 <= x < delaySendQueue.blocks.Length && x != b && x !in Blocks(q) ==>
                delaySendQueue.blocks[x] == old(delaySendQueue.blocks[x])
    {
      var blocks := delaySendQueue.blocks;
      ghost var start := blocks[..];
      blocks[b] := blocks[b].(firingTime := currentTime + blocks[b].delayTime);
      OthersChange(start, blocks[..], delaySendQueue.m_mail, q);
      if blocks[b].delayed {
        delaySendQueue.InsertMailByTime(b, pid, q);
      }
    }

    /** Receiving all mail of a tick. */
    method ReceiveAll(incoming: seq<nat>, ghost p: Post, ghost ins: seq<Incoming>)
      requires currentTime == p.now + 1 && delaySendQueue.Implements(p.queue)
      requires Arrived(delaySendQueue.blocks[..], incoming, ins, p.queue, 0)
      modifies delaySendQueue, delaySendQueue.blocks
      ensures delaySendQueue.Implements(Received(p, ins))
    {
      ghost var q, now := p.queue, currentTime;
      assert ins[..0] == [];
      for i := 0 to |incoming|
        invariant q == TakenInUpTo(p.queue, now, ins, i) && delaySendQueue.Implements(q)
        invariant Arrived(delaySendQueue.blocks[..], incoming, ins, q, i)
      {
        ghost var q' := TakenIn(q, now, ins[i]);
        ReceiveOne(incoming, i, q, ins);
        TakenInNext(p.queue, now, ins, i);
        q := q';
      }
      assert ins[..|incoming|] == ins;
    }

    method ReceiveOne(incoming: seq<nat>, i: nat, ghost q: seq<Mail>, ghost ins: seq<Incoming>)
      requires delaySendQueue.Implements(q) && Arrived(delaySendQueue.blocks[..], incoming, ins, q, i) && i < |incoming|
      modifies delaySendQueue, delaySendQueue.blocks
      ensures delaySendQueue.Implements(TakenIn(q, currentTime, ins[i]))
      ensures Arrived(delaySendQueue.blocks[..], incoming, ins, TakenIn(q, currentTime, ins[i]), i + 1)
    {
      ghost var before := delaySendQueue.blocks[..];
      assert ArrivedAt(before, incoming, ins, i);
      TakeIn(incoming[i], q, ins[i]);
      TakenInBlocks(q, currentTime, ins[i]);
      StillArrived(before, delaySendQueue.blocks[..], incoming, ins, q, TakenIn(q, currentTime, ins[i]), i);
    }

    /** Sending the first mail. */
    method SendFirst(ghost q: seq<Mail>) returns (sent: Sent)
      requires delaySendQueue.Implements(q) && |q| > 0
      modifies delaySendQueue`m_mail
      ensures delaySendQueue.Implements(q[1..]) && sent == Sent(q[0].item.destination, q[0].item.block)
    {
      assert HoldsAt(delaySendQueue.blocks[..], q, 0);
      var envelop, sender := delaySendQueue.GetMailOut(q);
      sent := Sent(delaySendQueue.blocks[envelop].destinationID, envelop);
    }

    /** Sending every mail that is due. */
    method SendDue(ghost q: seq<Mail>) returns (sent: seq<Sent>)
      requires delaySendQueue.Implements(q)
      modifies delaySendQueue`m_mail
      ensures delaySendQueue.Implements(q[Due(q, currentTime)..]) && sent == AsSent(q[..Due(q, currentTime)])
    {
      sent := [];
      ghost var n, all := 0, Due(q, currentTime);
      var due := FirstIsDue(q);
      while due
        invariant n <= all && delaySendQueue.Implements(q[n..]) && (due <==> n < all) && sent == AsSent(q[..n])
        decreases all - n
      {
        var first := SendFirst(q[n..]);
        sent := sent + [first];
        OneMoreSent(q, n);
        n := n + 1;
        due := FirstIsDue(q[n..]);
      }
    }

    method FirstIsDue(ghost q: seq<Mail>) returns (due: bool)
      requires delaySendQueue.Implements(q)
      ensures due <==> |q| > 0 && q[0].time <= currentTime
    {
      var msg := delaySendQueue.m_mail;
      if msg == NONE {
        return false;
      }
      assert HoldsAt(delaySendQueue.blocks[..], q, 0);
      due := delaySendQueue.blocks[msg].firingTime <= currentTime;
    }

    /** One turn of timer_i_process. */
    method OneTick(incoming: seq<nat>, ghost p: Post, ghost ins: seq<Incoming>) returns (sent: seq<Sent>)
      requires Implements(p) && Arrived(delaySendQueue.blocks[..], incoming, ins, p.queue, 0)
      modifies this, delaySendQueue, delaySendQueue.blocks
      ensures Implements(Tick(p, ins)) && sent == AsSent(Fired(p, ins))
    {
      currentTime := currentTime + 1;
      ReceiveAll(incoming, p, ins);
      sent := SendDue(Received(p, ins));
    }
  }

  /** The blocks received but not yet taken in are as they were. */
  lemma StillArrived(before: seq<Header>, after: seq<Header>, incoming: seq<nat>, ins: seq<Incoming>, q: seq<Mail>,
                     q': seq<Mail>, i: nat)
    requires Arrived(before, incoming, ins, q, i) && i < |incoming| && |before| == |after|
    requires forall x :: 0 <= x < |before| && x != incoming[i] && x !in Blocks(q) ==> after[x] == before[x]
    requires forall b :: b in Blocks(q') ==> b == incoming[i] || b in Blocks(q)
    ensures Arrived(after, incoming, ins, q', i + 1)
  {
    forall j | i + 1 <= j < |incoming|
      ensures ArrivedAt(after, incoming, ins, j)
    {
      assert ArrivedAt(before, incoming, ins, j);
    }
  }
}
