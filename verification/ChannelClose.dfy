/** Closing and the waiter counts, in every reachable state. */
module ChannelClose {
  import opened Results
  import opened Seqs
  import opened Ring
  import opened Channel
  import opened ChannelBase
  import opened ChannelInv
  import opened ChannelDuty

  /** Only the threads allowed to send (receive) are inside a send (receive). */
  ghost predicate RoleOk(c: Chan, u: Tid)
    requires u in c.th
  {
    && (SendSide(c.th[u].pc) ==> c.prod == None || c.prod == Some(u))
    && (RecvSide(c.th[u].pc) ==> c.cons == None || c.cons == Some(u))
  }

  ghost function SendRegs(th: map<Tid, Thread>): set<Tid> { set u <- th | th[u].pc.SendReg() }
  ghost function RecvRegs(th: map<Tid, Thread>): set<Tid> { set u <- th | th[u].pc.RecvReg() }

  /** Once the flag is set: while the senders are drained anything may be queued,
      then no sender is, and from then on nobody is queued or in hand. */
  ghost predicate Drained(closed: bool, pc: Pc, sendq: seq<Tid>, recvq: seq<Tid>) {
    match pc
    case KSend => closed
    case KRecv | KPop(_) => closed && sendq == []
    case DPop(_, _) | RHelp(_) | APush(_) => !closed
    case RPop2 => sendq == [] && !closed
    case _ => closed ==> sendq == [] && recvq == []
  }

  ghost predicate Care(c: Chan) {
    && (forall u <- c.th :: RoleOk(c, u))
    && c.sh.sendCnt == |SendRegs(c.th)| && c.sh.recvCnt == |RecvRegs(c.th)|
    && Drained(c.sh.closed, HolderPc(c.sh, c.th), c.sh.sendq, c.sh.recvq)
  }

  /** A control step, thread by thread: what it changes and what it leaves. */
  lemma ControlFrame(c: Chan, c': Chan, t: Tid, e: Eff)
    requires Base(c) && Control(c, c', t, e)
    ensures t in c.th && t in c.ring.ops
    ensures c'.ring.m == c.ring.m && c'.th.Keys == c.th.Keys && c'.ring.ops.Keys == c.ring.ops.Keys == c.th.Keys
    ensures c'.prod == c.prod && c'.cons == c.cons && c'.sh.closed == (c.sh.closed || e.close)
    ensures c'.th[t] == e.l && c'.ring.ops[t] == e.op && c.ring.ops[t].Returned()
    ensures forall u <- c.th :: u != t ==> c'.th[u].pc == c.th[u].pc && c'.ring.ops[u] == c.ring.ops[u]
    ensures c'.sh.sendq == QApply(e.sq, c.sh.sendq, t, SendHand(c.th[t].pc))
    ensures c'.sh.recvq == QApply(e.rq, c.sh.recvq, t, RecvHand(c.th[t].pc))
    ensures Post(t, c.th[t], c.ring.ops[t], ViewOf(c, t), e) && Dutiful(c.th[t], c.ring.ops[t], ViewOf(c, t), e)
    ensures !c.th[t].pc.Locked() && c.sh.lock.Some? ==>
      e.sq.Keep? && e.rq.Keep? && !e.close && HolderPc(c'.sh, c'.th) == HolderPc(c.sh, c.th)
    ensures c.th[t].pc.Locked() || c.sh.lock == None ==>
      && HolderPc(c.sh, c.th) == (if c.th[t].pc.Locked() then c.th[t].pc else Rest)
      && HolderPc(c'.sh, c'.th) == if e.l.pc.Locked() then e.l.pc else Rest
  {
    hide Prog, Inv, RequestOk, OpFits, QueueOk, OpenOk, OwnLedger, WaiterLedger, Record, QApply, Wake, WaitMove,
         QueueMove, Dutiful, LockOk, HolderPc, LockAfter;
    ControlPost(c, c', t, e);
    ProgDutiful(t, c.th[t], c.ring.ops[t], ViewOf(c, t), e);
    ServedAsleep(c, t, e);
    ControlHolder(c, c', t, e);
  }

  /** Who holds the lock before and after, and where. */
  lemma ControlHolder(c: Chan, c': Chan, t: Tid, e: Eff)
    requires Base(c) && Control(c, c', t, e)
    ensures !c.th[t].pc.Locked() && c.sh.lock.Some? ==> HolderPc(c'.sh, c'.th) == HolderPc(c.sh, c.th)
    ensures c.th[t].pc.Locked() || c.sh.lock == None ==>
      && HolderPc(c.sh, c.th) == (if c.th[t].pc.Locked() then c.th[t].pc else Rest)
      && HolderPc(c'.sh, c'.th) == if e.l.pc.Locked() then e.l.pc else Rest
  {
    hide Prog, Inv, RequestOk, OpFits, QueueOk, OpenOk, OwnLedger, WaiterLedger, Record, QApply, Wake, WaitMove,
         QueueMove;
    ControlPost(c, c', t, e);
    ServedAsleep(c, t, e);
    HolderMoves(c.sh, c.th, c'.th, t, c'.sh.lock);
  }

  // ------------------------------------------------------------ preservation

  lemma CountMoves(before: set<Tid>, after: set<Tid>, t: Tid)
    requires forall u :: u != t ==> (u in after <==> u in before)
    ensures |after| == |before| + Bit(t in after) - Bit(t in before)
  {
    var rest := before - {t};
    assert before == (if t in before then rest + {t} else rest);
    assert after == (if t in after then rest + {t} else rest);
  }

  lemma ControlKeepsCounts(c: Chan, c': Chan, t: Tid, e: Eff)
    requires Base(c) && Care(c) && Control(c, c', t, e)
    ensures c'.sh.sendCnt == |SendRegs(c'.th)| && c'.sh.recvCnt == |RecvRegs(c'.th)|
  {
    hide Base, Prog, RoleOk, Drained, Dutiful, Shape, OwnLedger, WaiterLedger, ViewOf, WaitMove, QueueMove, QApply,
         Record, Wake, SetOp;
    ControlFrame(c, c', t, e);
    CountMoves(SendRegs(c.th), SendRegs(c'.th), t);
    CountMoves(RecvRegs(c.th), RecvRegs(c'.th), t);
  }

  /** A locked step by the draining rules. */
  lemma DrainStep(t: Tid, pc: Pc, l: Thread, op: Op<Item>, v: View, e: Eff)
    requires Drained(v.closed, pc, v.sendq, v.recvq) && pc == (if l.pc.Locked() then l.pc else Rest)
    requires Lawful(t, l, v, e) && Dutiful(l, op, v, e) && (!l.pc.Locked() ==> v.free)
    ensures Drained(v.closed || e.close, if e.l.pc.Locked() then e.l.pc else Rest,
                    QApply(e.sq, v.sendq, t, SendHand(l.pc)), QApply(e.rq, v.recvq, t, RecvHand(l.pc)))
  {
    hide KeepsDuty, Without;
  }

  lemma ControlKeepsRoles(c: Chan, c': Chan, t: Tid, e: Eff)
    requires Base(c) && Care(c) && Control(c, c', t, e)
    ensures forall u <- c'.th :: RoleOk(c', u)
  {
    hide Base, Prog, Drained, Post, Apply, SendSide, RecvSide, KeepsDuty, Arrives, Drains, SendRegs, RecvRegs;
    ControlFrame(c, c', t, e);
    forall u <- c'.th ensures RoleOk(c', u) { assert RoleOk(c, u) && RoleOk(c, t); }
  }

  lemma ControlKeepsCare(c: Chan, c': Chan, t: Tid, e: Eff)
    requires Base(c) && Care(c) && Control(c, c', t, e)
    ensures Care(c')
  {
    hide Base, Prog, RoleOk, Drained, Dutiful, Shape, Lawful, OwnLedger, WaiterLedger, QApply, Apply, SendRegs,
         RecvRegs;
    ControlKeepsRoles(c, c', t, e);
    ControlKeepsCounts(c, c', t, e);
    ControlFrame(c, c', t, e);
    if c.th[t].pc.Locked() || c.sh.lock == None {
      DrainStep(t, HolderPc(c.sh, c.th), c.th[t], c.ring.ops[t], ViewOf(c, t), e);
    } else {
      assert c'.sh.sendq == c.sh.sendq && c'.sh.recvq == c.sh.recvq by {
        KeepKeeps(c.sh.sendq, t);
        KeepKeeps(c.sh.recvq, t);
      }
    }
  }

  lemma KeepKeeps(q: seq<Tid>, t: Tid)
    ensures forall hand :: QApply(Keep, q, t, hand) == q
  {
  }

  lemma StepKeepsCare(c: Chan, c': Chan, t: Tid)
    requires Base(c) && Care(c) && StepBy(c, c', t)
    ensures Care(c')
  {
    hide Base, Control, Step, Leaves;
    if RingStep(c, c', t) {
      forall u <- c'.th ensures RoleOk(c', u) { assert RoleOk(c, u); }
    } else {
      var e :| Control(c, c', t, e);
      ControlKeepsCare(c, c', t, e);
    }
  }

  lemma {:induction false} RunCare(run: seq<Chan>, i: nat)
    requires Channel.Run(run) && i < |run|
    ensures Care(run[i])
  {
    hide Base, StepBy, RoleOk, Drained;
    if i == 0 {
      InitCare(run[0]);
    } else {
      RunCare(run, i - 1);
      RunBase(run, i - 1);
      assert Channel.Next(run[i - 1], run[i]);
      var t: Tid :| StepBy(run[i - 1], run[i], t);
      StepKeepsCare(run[i - 1], run[i], t);
    }
  }

  lemma InitCare(c: Chan)
    requires Init(c)
    ensures Care(c)
  {
    assert SendRegs(c.th) == {} && RecvRegs(c.th) == {};
  }

  // -------------------------------------------------------------- theorems

  /** The two counts are exact: they are the numbers of threads registered as
      waiting senders and receivers. */
  lemma CountsAreExact(run: seq<Chan>, i: nat)
    requires Channel.Run(run) && i < |run|
    ensures run[i].sh.sendCnt == |SendRegs(run[i].th)| && run[i].sh.recvCnt == |RecvRegs(run[i].th)|
  {
    hide Channel.Run;
    RunCare(run, i);
  }

  /** Once a close has finished, nobody is queued and every sleeper has its
      result: close wakes every waiter. */
  lemma CloseWakesAll(run: seq<Chan>, i: nat)
    requires Channel.Run(run) && i < |run|
    requires run[i].sh.closed && !Draining(HolderPc(run[i].sh, run[i].th))
    ensures run[i].sh.sendq == [] && run[i].sh.recvq == []
    ensures forall u <- run[i].th :: Asleep(run[i].th[u]) || Dozing(run[i].th[u]) ==> run[i].th[u].res.Some?
  {
    hide Channel.Run, Inv, ThreadsOk, OpenOk, RoleOk, SendRegs, RecvRegs;
    var c := run[i];
    RunCare(run, i);
    RunBase(run, i);
    forall u <- c.th | Asleep(c.th[u]) || Dozing(c.th[u]) ensures c.th[u].res.Some? {
      if c.th[u].res == None { assert u in SendWaiters(c.th) || u in RecvWaiters(c.th); }
    }
  }

  /** A waiter's result is set once: nobody else ever overwrites it. */
  lemma ResultIsFinal(c: Chan, c': Chan, t: Tid, u: Tid)
    requires Base(c) && StepBy(c, c', t) && u in c.th && u != t && c.th[u].res.Some?
    ensures u in c'.th && c'.th[u] == c.th[u]
  {
    hide Base, Prog, Step, Leaves, Post, QApply, Wake, Record, Lawful, Shape, OwnLedger, WaiterLedger;
    if !RingStep(c, c', t) {
      var e :| Control(c, c', t, e);
      ControlPost(c, c', t, e);
      assert Lawful(t, c.th[t], ViewOf(c, t), e) by { PostLawful(t, c.th[t], c.ring.ops[t], ViewOf(c, t), e); }
      ServedAsleep(c, t, e);
    }
  }

  lemma PostLawful(t: Tid, l: Thread, op: Op<Item>, v: View, e: Eff)
    requires Post(t, l, op, v, e)
    ensures Lawful(t, l, v, e)
  {
    hide Lawful, Shape, OwnLedger, WaiterLedger;
  }

  /** A locked or lock-taking step on a closed channel adds nobody to a queue. */
  lemma ClosedShrinks(t: Tid, pc: Pc, l: Thread, op: Op<Item>, v: View, e: Eff, u: Tid)
    requires v.closed && Drained(v.closed, pc, v.sendq, v.recvq) && pc == (if l.pc.Locked() then l.pc else Rest)
    requires Lawful(t, l, v, e) && Dutiful(l, op, v, e)
    ensures u in QApply(e.sq, v.sendq, t, SendHand(l.pc)) ==> u in v.sendq
    ensures u in QApply(e.rq, v.recvq, t, RecvHand(l.pc)) ==> u in v.recvq
  {
    hide KeepsDuty;
  }

  /** The flag is never cleared, and a closed channel admits no new waiter. */
  lemma ClosedForGood(c: Chan, c': Chan, t: Tid, u: Tid)
    requires Base(c) && Care(c) && StepBy(c, c', t) && c.sh.closed
    ensures c'.sh.closed
    ensures u in c'.sh.sendq ==> u in c.sh.sendq
    ensures u in c'.sh.recvq ==> u in c.sh.recvq
  {
    hide Base, Prog, Step, Leaves, Apply, OwnLedger, WaiterLedger, Shape, RoleOk, SendRegs, RecvRegs, Dutiful, Lawful,
         Drained;
    if !RingStep(c, c', t) {
      var e :| Control(c, c', t, e);
      ControlFrame(c, c', t, e);
      if c.th[t].pc.Locked() || c.sh.lock == None {
        ClosedShrinks(t, HolderPc(c.sh, c.th), c.th[t], c.ring.ops[t], ViewOf(c, t), e, u);
      }
    }
  }
}
