/** The structural invariant holds in every reachable state of the channel. */
module ChannelInv {
  import opened Results
  import opened Ring
  import opened Channel
  import opened ChannelBase
  import opened ChannelSteps

  /** A waiter in somebody's hands is asleep with one value to send, or to receive. */
  lemma HandAsleep(c: Chan, t: Tid)
    requires Base(c) && t in c.th
    ensures SendHand(c.th[t].pc).Some? ==>
      var w := SendHand(c.th[t].pc).value;
      w in c.th && w != t && Asleep(c.th[w]) && SendWaits(c.th[w]) && |c.th[w].items| == 1
    ensures RecvHand(c.th[t].pc).Some? ==>
      var w := RecvHand(c.th[t].pc).value; w in c.th && w != t && Dozing(c.th[w]) && RecvWaits(c.th[w])
    ensures SendHand(c.th[t].pc).Some? || RecvHand(c.th[t].pc).Some? ==> c.th[t].pc.Locked() && c.sh.lock == Some(t)
    ensures c.th[t].pc.Locked() ==> HolderPc(c.sh, c.th) == c.th[t].pc
  {
    hide Inv, OpFits, OpenOk, Numbered;
    if SendHand(c.th[t].pc).Some? {
      var w := SendHand(c.th[t].pc).value;
      assert w in SendWaiters(c.th);
      assert RequestOk(c.th[w], w);
    }
    if RecvHand(c.th[t].pc).Some? {
      assert RecvHand(c.th[t].pc).value in RecvWaiters(c.th);
    }
  }

  lemma SendQueued(c: Chan)
    requires Base(c)
    ensures forall s :: s in c.sh.sendq ==> s in c.th && SendWaits(c.th[s]) && |c.th[s].items| == 1
    ensures forall u <- c.th :: c.th[u].pc.SPush2? ==> u in c.sh.sendq
    ensures forall u <- c.th :: c.sh.lock == None && Asleep(c.th[u]) ==> (u in c.sh.sendq <==> c.th[u].res == None)
  {
    hide Inv, OpFits, OpenOk, Numbered, RecvWaiters;
    forall s | s in c.sh.sendq ensures s in c.th && SendWaits(c.th[s]) && |c.th[s].items| == 1 {
      assert s in SendWaiters(c.th) && RequestOk(c.th[s], s);
    }
    forall u <- c.th ensures SendWaits(c.th[u]) <==> u in SendWaiters(c.th) {}
  }

  lemma RecvQueued(c: Chan)
    requires Base(c)
    ensures forall r :: r in c.sh.recvq ==> r in c.th && RecvWaits(c.th[r])
    ensures forall u <- c.th :: c.th[u].pc.RPop2? ==> u in c.sh.recvq
    ensures forall u <- c.th :: c.sh.lock == None && Dozing(c.th[u]) ==> (u in c.sh.recvq <==> c.th[u].res == None)
  {
    hide Inv, ThreadsOk, OpenOk, SendWaiters;
    forall r | r in c.sh.recvq ensures r in c.th && RecvWaits(c.th[r]) { assert r in RecvWaiters(c.th); }
    forall u <- c.th ensures RecvWaits(c.th[u]) <==> u in RecvWaiters(c.th) {}
  }

  /** Queued waiters are asleep, or the lock holder rechecking. */
  lemma QueuedWait(c: Chan)
    requires Base(c)
    ensures forall s :: s in c.sh.sendq ==> s in c.th && SendWaits(c.th[s]) && |c.th[s].items| == 1
    ensures forall r :: r in c.sh.recvq ==> r in c.th && RecvWaits(c.th[r])
    ensures forall u <- c.th :: c.th[u].pc.SPush2? ==> u in c.sh.sendq
    ensures forall u <- c.th :: c.th[u].pc.RPop2? ==> u in c.sh.recvq
    ensures forall u <- c.th :: c.sh.lock == None && Asleep(c.th[u]) ==> (u in c.sh.sendq <==> c.th[u].res == None)
    ensures forall u <- c.th :: c.sh.lock == None && Dozing(c.th[u]) ==> (u in c.sh.recvq <==> c.th[u].res == None)
  {
    hide Base, SendWaits, RecvWaits, Asleep, Dozing;
    SendQueued(c);
    RecvQueued(c);
  }

  lemma PreHolds(c: Chan, t: Tid)
    requires Base(c) && t in c.th
    ensures t in c.ring.ops && Pre(t, c.th[t], c.ring.ops[t], ViewOf(c, t))
  {
    hide Inv, RequestOk, QueueOk, LockOk;
    HandAsleep(c, t);
    QueuedWait(c);
    if c.sh.sendq != [] { assert c.sh.sendq[0] in c.sh.sendq; }
    assert OpFits(c.ring.ops[t], c.th[t], AuthorItems(c.th, t));
  }

  // -------------------------------------------------- applying an effect

  /** Threads other than t are untouched, except the served waiters, whose results are filled in. */
  ghost predicate OthersKept(th: map<Tid, Thread>, th': map<Tid, Thread>, t: Tid, sw: Option<Tid>, rw: Option<Tid>) {
    && th'.Keys == th.Keys
    && forall u <- th :: u != t ==>
         if sw == Some(u) || rw == Some(u) then
           th'[u].res.Some? && th'[u] == th[u].(res := th'[u].res, done := th'[u].done)
         else th'[u] == th[u]
  }

  function SendServed(c: Chan, t: Tid, e: Eff): Option<Tid> requires t in c.th {
    Served(e.sq, c.sh.sendq, SendHand(c.th[t].pc))
  }
  function RecvServed(c: Chan, t: Tid, e: Eff): Option<Tid> requires t in c.th {
    Served(e.rq, c.sh.recvq, RecvHand(c.th[t].pc))
  }

  lemma WakeKeeps(th: map<Tid, Thread>, t: Tid, l: Thread, sw: Option<Tid>, rw: Option<Tid>, e: Eff)
    requires t in th && (sw.Some? ==> sw.value in th && sw.value != t) && (rw.Some? ==> rw.value in th && rw.value != t)
    ensures OthersKept(th, Wake(Wake(th, sw, e), rw, e)[t := l], t, sw, rw)
  {
  }

  /** Served waiters are asleep on the right side and are not t. */
  lemma ServedAsleep(c: Chan, t: Tid, e: Eff)
    requires Base(c) && t in c.th && Lawful(t, c.th[t], ViewOf(c, t), e)
    ensures var w := SendServed(c, t, e); w.Some? ==>
      w.value != t && w.value in c.th && SendWaits(c.th[w.value]) && Asleep(c.th[w.value]) && !e.sq.Join? && !e.sq.Quit?
    ensures var w := RecvServed(c, t, e); w.Some? ==>
      w.value != t && w.value in c.th && RecvWaits(c.th[w.value]) && Dozing(c.th[w.value]) && !e.rq.Join? && !e.rq.Quit?
    ensures OthersKept(c.th, Apply(c, t, e).th, t, SendServed(c, t, e), RecvServed(c, t, e))
  {
    hide Inv, OpFits, OpenOk, RequestOk, QueueOk, Record, SetOp, QApply, Wake, ThreadsOk, LockAfter, OthersKept,
         LockOk;
    HandAsleep(c, t);
    QueuedWait(c);
    if c.sh.sendq != [] { assert c.sh.sendq[0] in c.sh.sendq; }
    if c.sh.recvq != [] { assert c.sh.recvq[0] in c.sh.recvq; }
    if c.th[t].pc.Locked() || c.sh.lock == None { HeadAsleep(c, t); }
    WakeKeeps(c.th, t, e.l, SendServed(c, t, e), RecvServed(c, t, e), e);
  }

  /** Nobody but the lock holder rechecks, so queue heads seen by others are asleep. */
  lemma HeadAsleep(c: Chan, t: Tid)
    requires Base(c) && t in c.th && (c.th[t].pc.Locked() || c.sh.lock == None)
    ensures forall s :: s in c.sh.sendq && (s != t || !SendWaits(c.th[t])) ==> s != t && s in c.th && Asleep(c.th[s])
    ensures forall r :: r in c.sh.recvq && (r != t || !RecvWaits(c.th[t])) ==> r != t && r in c.th && Dozing(c.th[r])
  {
    hide Inv, OpFits, OpenOk, ThreadsOk, QueueOk;
    QueuedWait(c);
  }

  /** The lock holder, before and after, is t or an untouched thread. */
  lemma HolderMoves(sh: Shared, th: map<Tid, Thread>, th': map<Tid, Thread>, t: Tid, lock': Option<Tid>)
    requires LockOk(sh, th) && t in th && th'.Keys == th.Keys
    requires forall u <- th :: u != t ==> th'[u].pc == th[u].pc
    requires lock' == LockAfter(sh.lock, th[t].pc, th'[t].pc, t)
    requires !th[t].pc.Locked() && th'[t].pc.Locked() ==> sh.lock == None
    ensures LockOk(sh.(lock := lock'), th')
    ensures th[t].pc.Locked() || sh.lock == None ==>
      && SendHand(HolderPc(sh, th)) == SendHand(th[t].pc)
      && SendHand(HolderPc(sh.(lock := lock'), th')) == SendHand(th'[t].pc)
      && RecvHand(HolderPc(sh, th)) == RecvHand(th[t].pc)
      && RecvHand(HolderPc(sh.(lock := lock'), th')) == RecvHand(th'[t].pc)
    ensures !th[t].pc.Locked() && sh.lock.Some? ==>
      && HolderPc(sh.(lock := lock'), th') == HolderPc(sh, th)
      && SendHand(th[t].pc) == SendHand(th'[t].pc) == None && RecvHand(th[t].pc) == RecvHand(th'[t].pc) == None
  {
  }

  lemma SendWaitersMove(th: map<Tid, Thread>, th': map<Tid, Thread>, t: Tid, sq: QOp, sw: Option<Tid>, rw: Option<Tid>)
    requires t in th && OthersKept(th, th', t, sw, rw) && WaitMove(sq, SendWaits(th[t]), SendWaits(th'[t]))
    requires sw.Some? ==> sw.value != t && sw.value in th && Asleep(th[sw.value]) && !sq.Join? && !sq.Quit?
    requires rw.Some? ==> rw.value in th && !SendWaits(th[rw.value])
    ensures SendWaiters(th') == WaitersAfter(sq, SendWaiters(th), t, sw)
  {
    forall u ensures u in SendWaiters(th') <==> u in WaitersAfter(sq, SendWaiters(th), t, sw) {}
  }

  lemma RecvWaitersMove(th: map<Tid, Thread>, th': map<Tid, Thread>, t: Tid, rq: QOp, sw: Option<Tid>, rw: Option<Tid>)
    requires t in th && OthersKept(th, th', t, sw, rw) && WaitMove(rq, RecvWaits(th[t]), RecvWaits(th'[t]))
    requires rw.Some? ==> rw.value != t && rw.value in th && Dozing(th[rw.value]) && !rq.Join? && !rq.Quit?
    requires sw.Some? ==> sw.value in th && !RecvWaits(th[sw.value])
    ensures RecvWaiters(th') == WaitersAfter(rq, RecvWaiters(th), t, rw)
  {
    forall u ensures u in RecvWaiters(th') <==> u in WaitersAfter(rq, RecvWaiters(th), t, rw) {}
  }

  lemma ApplyKeepsSendQueue(c: Chan, t: Tid, e: Eff)
    requires Base(c) && t in c.th && Lawful(t, c.th[t], ViewOf(c, t), e)
    ensures var c' := Apply(c, t, e);
      LockOk(c'.sh, c'.th) && QueueOk(c'.sh.sendq, SendWaiters(c'.th), SendHand(HolderPc(c'.sh, c'.th)))
  {
    hide Inv, RequestOk, OpFits, ThreadsOk, OpenOk, Record, SetOp, Wake, QueueOk;
    var c' := Apply(c, t, e);
    ServedAsleep(c, t, e);
    HolderMoves(c.sh, c.th, c'.th, t, c'.sh.lock);
    SendWaitersMove(c.th, c'.th, t, e.sq, SendServed(c, t, e), RecvServed(c, t, e));
    assert e.sq.Join? ==> t !in SendWaiters(c.th);
    hide SendWaiters, OthersKept, WaitersAfter, WaitMove, HolderPc, LockAfter;
    QueueStep(e.sq, c.sh.sendq, SendWaiters(c.th), t, SendHand(HolderPc(c.sh, c.th)), SendHand(HolderPc(c'.sh, c'.th)));
  }

  lemma ApplyKeepsRecvQueue(c: Chan, t: Tid, e: Eff)
    requires Base(c) && t in c.th && Lawful(t, c.th[t], ViewOf(c, t), e)
    ensures var c' := Apply(c, t, e); QueueOk(c'.sh.recvq, RecvWaiters(c'.th), RecvHand(HolderPc(c'.sh, c'.th)))
  {
    hide Inv, RequestOk, OpFits, ThreadsOk, OpenOk, Record, SetOp, Wake, QueueOk;
    var c' := Apply(c, t, e);
    ServedAsleep(c, t, e);
    HolderMoves(c.sh, c.th, c'.th, t, c'.sh.lock);
    RecvWaitersMove(c.th, c'.th, t, e.rq, SendServed(c, t, e), RecvServed(c, t, e));
    assert e.rq.Join? ==> t !in RecvWaiters(c.th);
    hide RecvWaiters, OthersKept, WaitersAfter, WaitMove, HolderPc, LockAfter;
    QueueStep(e.rq, c.sh.recvq, RecvWaiters(c.th), t, RecvHand(HolderPc(c.sh, c.th)), RecvHand(HolderPc(c'.sh, c'.th)));
  }

  lemma WokenOk(l: Thread, l': Thread, u: Tid)
    requires RequestOk(l, u) && (Asleep(l) || Dozing(l))
    requires l'.res.Some? && l' == l.(res := l'.res, done := l'.done)
    requires (Dozing(l) && l'.res == Some(Ok) ==> l'.done != [])
    ensures RequestOk(l', u)
  {
  }

  /** The values another thread is pushing stay in place while t acts. */
  lemma AuthorKept(c: Chan, t: Tid, e: Eff, u: Tid)
    requires Base(c) && t in c.th && u in c.th && u != t
    requires Lawful(t, c.th[t], ViewOf(c, t), e)
    ensures var th' := Apply(c, t, e).th;
      u in th' && th'[u].pc == c.th[u].pc && th'[u].late == c.th[u].late
      && (OpFits(c.ring.ops[u], c.th[u], AuthorItems(c.th, u)) ==> OpFits(c.ring.ops[u], th'[u], AuthorItems(th', u)))
  {
    hide Inv, RequestOk, QueueOk, PushFits, PopFits, LockOk, Record, QApply, LockAfter, SetOp, Wake, ThreadsOk,
         WaitMove, QueueMove;
    ServedAsleep(c, t, e);
    HandAsleep(c, u);
  }

  lemma OtherThreadKept(c: Chan, t: Tid, e: Eff, u: Tid)
    requires Base(c) && t in c.th && t in c.ring.ops && u in c.th && u != t && u in c.ring.ops
    requires Post(t, c.th[t], c.ring.ops[t], ViewOf(c, t), e)
    ensures var th' := Apply(c, t, e).th;
      u in th' && RequestOk(th'[u], u) && OpFits(c.ring.ops[u], th'[u], AuthorItems(th', u))
  {
    hide Inv, RequestOk, QueueOk, OpFits, LockOk, Apply, WaitMove, OwnLedger, Shape;
    ServedAsleep(c, t, e);
    AuthorKept(c, t, e, u);
    if Apply(c, t, e).th[u] != c.th[u] {
      ServedResult(c, t, e, u);
      WokenOk(c.th[u], Apply(c, t, e).th[u], u);
    }
  }

  lemma ApplyKeepsThreads(c: Chan, t: Tid, e: Eff)
    requires Base(c) && t in c.th && t in c.ring.ops && Post(t, c.th[t], c.ring.ops[t], ViewOf(c, t), e)
    ensures var c' := Apply(c, t, e); ThreadsOk(c'.ring.ops, c'.th)
  {
    hide Inv, RequestOk, QueueOk, OpFits, LockOk, Record, QApply, LockAfter, Wake, OwnLedger, Lawful, WaiterLedger;
    var c' := Apply(c, t, e);
    ServedAsleep(c, t, e);
    FirstIsHead(c, t, e);
    forall u <- c'.th ensures RequestOk(c'.th[u], u) && OpFits(c'.ring.ops[u], c'.th[u], AuthorItems(c'.th, u)) {
      if u != t { OtherThreadKept(c, t, e, u); }
    }
  }

  /** A served waiter gets exactly the result and the values of the effect. */
  lemma ServedResult(c: Chan, t: Tid, e: Eff, u: Tid)
    requires t in c.th && u in c.th && u != t
    requires SendServed(c, t, e) == Some(u) || RecvServed(c, t, e) == Some(u)
    ensures Apply(c, t, e).th[u] == c.th[u].(res := Some(e.res), done := e.got)
  {
  }

  /** The push t starts on behalf of a dequeued sender pushes that sender's values. */
  lemma FirstIsHead(c: Chan, t: Tid, e: Eff)
    requires Base(c) && t in c.th && Lawful(t, c.th[t], ViewOf(c, t), e)
    ensures var th' := Apply(c, t, e).th;
      t in th' && AuthorItems(th', t) == if SendHand(e.l.pc).Some? then ViewOf(c, t).first else e.l.items
  {
    hide Inv, RequestOk, QueueOk, OpFits, LockOk, Record, QApply, LockAfter, Wake, WaitMove, SetOp, ThreadsOk;
    ServedAsleep(c, t, e);
    HandAsleep(c, t);
    if SendHand(e.l.pc).Some? && SendHand(c.th[t].pc).None? {
      assert e.sq.Take? && c.sh.sendq[0] in c.sh.sendq;
      QueuedWait(c);
      HeadAsleep(c, t);
    }
  }

  lemma ApplyKeepsOpen(c: Chan, t: Tid, e: Eff)
    requires Base(c) && t in c.th && Lawful(t, c.th[t], ViewOf(c, t), e)
    ensures var c' := Apply(c, t, e); OpenOk(c'.sh.closed, c'.th)
  {
    hide Inv, RequestOk, QueueOk, OpFits, Record, QApply, LockAfter, Wake, WaitMove, SetOp, ThreadsOk;
    ServedAsleep(c, t, e);
  }

  // ---------------------------------------------------------- executions

  lemma ControlPost(c: Chan, c': Chan, t: Tid, e: Eff)
    requires Base(c) && Control(c, c', t, e)
    ensures Post(t, c.th[t], c.ring.ops[t], ViewOf(c, t), e) && c' == Apply(c, t, e)
  {
    hide Base, Prog, Pre, Post, Apply, ViewOf;
    PreHolds(c, t);
    ProgOk(t, c.th[t], c.ring.ops[t], ViewOf(c, t), e);
  }

  lemma ApplyKeepsRing(c: Chan, t: Tid, e: Eff)
    requires Inv(c.ring) && t in c.ring.ops && t in c.th && c.ring.ops[t].Returned() && e.op.Fresh()
    ensures Inv(Apply(c, t, e).ring)
  {
    hide Wake, Record, QApply, LockAfter;
    assert OpOk(c.ring.m, t, e.op);
    SetOpKeepsInv(c.ring, t, e.op);
  }

  lemma ControlKeepsBase(c: Chan, c': Chan, t: Tid, e: Eff)
    requires Base(c) && Control(c, c', t, e)
    ensures Base(c')
  {
    hide Prog, ViewOf, Lawful, OwnLedger, WaiterLedger, Apply, RequestOk, OpFits, ThreadsOk, OpenOk, LockOk, QueueOk,
         Inv;
    ControlPost(c, c', t, e);
    ApplyKeepsThreads(c, t, e);
    ApplyKeepsOpen(c, t, e);
    ApplyKeepsSendQueue(c, t, e);
    ApplyKeepsRecvQueue(c, t, e);
    ApplyKeepsRing(c, t, e);
  }

  lemma InitBase(c: Chan)
    requires Init(c)
    ensures Base(c)
  {
  }

  lemma {:induction false} RunBase(run: seq<Chan>, i: nat)
    requires Channel.Run(run) && i < |run|
    ensures Base(run[i])
  {
    hide Init, Base, StepBy;
    if i == 0 {
      InitBase(run[0]);
    } else {
      RunBase(run, i - 1);
      assert Channel.Next(run[i - 1], run[i]);
      var t: Tid :| StepBy(run[i - 1], run[i], t);
      StepKeepsBase(run[i - 1], run[i], t);
    }
  }

  lemma StepKeepsBase(c: Chan, c': Chan, t: Tid)
    requires Base(c) && StepBy(c, c', t)
    ensures Base(c')
  {
    hide Base, RingStep, Control;
    if RingStep(c, c', t) {
      RingStepKeepsBase(c, c', t);
    } else {
      var e :| Control(c, c', t, e);
      ControlKeepsBase(c, c', t, e);
    }
  }
}
