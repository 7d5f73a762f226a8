/** Duties: which places oblige a thread to serve a waiter, and how program
    steps pass a duty on or discharge it. */
module ChannelDuty {
  import opened Ring
  import opened Channel
  import opened ChannelBase

  predicate SendSide(pc: Pc) {
    match pc
    case SGate | SPush | SDeliverLock | SLock | SPush1 | SPush2 | SParked | SExpired | SWoken => true
    case DLoad(_) | DTest(_, _) | DPop(_, _) => true
    case _ => false
  }

  predicate RecvSide(pc: Pc) {
    match pc
    case RPop | RAdmitLock | RLock | RPop1 | RHelp(_) | RPop2 | RParked | RExpired | RWoken => true
    case ALoad | ATest(_) | APush(_) => true
    case _ => false
  }

  /** Draining the queues under the lock after setting the flag. */
  predicate Draining(pc: Pc) { match pc case KSend | KRecv | KPop(_) => true case _ => false }

  /** Will yet look at the ring and at the parked receivers: it has stored
      something and not looked for receivers since, or it is looking, or it is closing. */
  predicate OwesReceiver(pc: Pc, op: Op<Item>, ch: nat) {
    match pc
    case SPush | SPush1 | SPush2 => op.PRet? && op.sent != []
    case SDeliverLock | DLoad(_) | KSend | KRecv => true
    case DTest(_, tail) => tail != ch
    case _ => false
  }

  /** Likewise for a parked sender after taking something out of the ring. */
  predicate OwesSender(pc: Pc, op: Op<Item>, cap: nat, ct: nat) {
    match pc
    case RPop | RPop1 => op.CRet? && op.got != []
    case RAdmitLock | ALoad | KSend => true
    case ATest(head) => Room(false, 1, cap, head, ct) != 0
    case _ => false
  }

  /** How many steps of its own separate a thread from serving; `queued` senders are left to close. */
  function Distance(pc: Pc, queued: int): int {
    match pc
    case SPush | RPop => 4
    case SDeliverLock | RAdmitLock | SPush1 | SPush2 => 3
    case DLoad(_) | ALoad => 2
    case KSend => 2 + queued
    case _ => 1
  }

  /** A duty is discharged, or passed on to the thread's next place, which is nearer. */
  ghost predicate KeepsDuty(l: Thread, op: Op<Item>, v: View, e: Eff) {
    && (OwesReceiver(l.pc, op, v.ch) && v.ch < v.pt && v.recvCnt != 0 && v.recvq != [] ==>
          || e.rq.Take?
          || (&& OwesReceiver(e.l.pc, e.op, v.ch)
              && Distance(e.l.pc, |v.sendq| - Bit(e.sq.WakeHead?)) < Distance(l.pc, |v.sendq|)))
    && (OwesSender(l.pc, op, v.cap, v.ct) && v.ct <= v.ph < v.ct + v.cap && v.sendCnt != 0 && v.sendq != [] ==>
          || e.sq.Take? || e.sq.WakeHead?
          || (OwesSender(e.l.pc, e.op, v.cap, v.ct) && Distance(e.l.pc, |v.sendq|) < Distance(l.pc, |v.sendq|)))
  }

  /** What a thread has seen, or where it was, when it arrives at a place. */
  ghost predicate Arrives(l: Thread, op: Op<Item>, v: View, e: Eff) {
    match e.l.pc
    case DTest(_, tail) => tail == v.pt
    case DPop(_, _) => e.rq.Take? && l.pc.DTest? && l.pc.tail != v.ch
    case ATest(head) => head == v.ph
    case RHelp(_) => e.sq.Take? && l.pc == RPop1 && op.CRet? && op.got != []
    case APush(_) => e.sq.Take? && l.pc.ATest? && Room(false, 1, v.cap, l.pc.head, v.ct) != 0
    case RPop2 => e.sq.Keep? && v.sendq == []
    case SParked => e.sq.Keep? && l.pc == SPush2 && op.PRet? && op.sent == []
    case SExpired => e.sq.Keep? && l.pc == SParked
    case RParked => e.sq.Keep? && e.rq.Keep? && l.pc == RPop2 && op.CRet? && op.got == []
    case RExpired => e.rq.Keep? && l.pc == RParked
    case KSend => (l.pc == KSend && e.sq.WakeHead?) || (l.pc == KLock && e.close)
    case KRecv => l.pc.KPop? || (l.pc == KSend && v.sendq == [])
    case KPop(_) => l.pc == KRecv
    case _ => true
  }

  /** Closing drains the senders, then the receivers, and stops only when both queues are empty. */
  ghost predicate Drains(l: Thread, v: View, e: Eff) {
    match l.pc
    case KSend => e.l.pc == KSend || e.l.pc == KRecv
    case KRecv => e.sq.Keep? && (e.l.pc.KPop? || v.recvq == [])
    case KPop(_) => e.sq.Keep? && e.rq.WakeHand? && e.l.pc == KRecv
    case _ => true
  }

  ghost predicate Dutiful(l: Thread, op: Op<Item>, v: View, e: Eff) {
    && KeepsDuty(l, op, v, e) && Arrives(l, op, v, e) && Drains(l, v, e) && (e.close ==> e.l.pc == KSend)
    && (SendSide(e.l.pc) ==> v.maySend || SendSide(l.pc)) && (RecvSide(e.l.pc) ==> v.mayRecv || RecvSide(l.pc))
  }

  lemma BeginSendDutiful(t: Tid, l: Thread, op: Op<Item>, v: View, e: Eff, vals: seq<Bytes>, mode: Mode)
    requires BeginSend(t, l, v, e, vals, mode)
    ensures Dutiful(l, op, v, e)
  {
  }

  lemma GateSendDutiful(t: Tid, l: Thread, op: Op<Item>, v: View, e: Eff, fast: bool)
    requires GateSend(l, v, e, fast)
    ensures Dutiful(l, op, v, e)
  {
  }

  lemma AfterPushDutiful(t: Tid, l: Thread, op: Op<Item>, v: View, e: Eff, retry: bool)
    requires AfterPush(l, op, v, e, retry)
    ensures Dutiful(l, op, v, e)
  {
  }

  lemma LockDeliverDutiful(t: Tid, l: Thread, op: Op<Item>, v: View, e: Eff)
    requires LockDeliver(l, v, e)
    ensures Dutiful(l, op, v, e)
  {
  }

  lemma LockSendDutiful(t: Tid, l: Thread, op: Op<Item>, v: View, e: Eff)
    requires LockSend(l, v, e)
    ensures Dutiful(l, op, v, e)
  {
  }

  lemma AfterPush1Dutiful(t: Tid, l: Thread, op: Op<Item>, v: View, e: Eff)
    requires AfterPush1(l, op, e)
    ensures Dutiful(l, op, v, e)
  {
  }

  lemma AfterPush2Dutiful(t: Tid, l: Thread, op: Op<Item>, v: View, e: Eff)
    requires AfterPush2(l, op, e)
    ensures Dutiful(l, op, v, e)
  {
  }

  lemma DeliverLoadDutiful(t: Tid, l: Thread, op: Op<Item>, v: View, e: Eff)
    requires DeliverLoad(l, v, e)
    ensures Dutiful(l, op, v, e)
  {
  }

  lemma DeliverTakesDutiful(l: Thread, op: Op<Item>, v: View, e: Eff)
    requires DeliverTest(l, v, e) && l.pc.tail != v.ch && v.recvq != []
    ensures Dutiful(l, op, v, e)
  {
  }

  lemma DeliverExitsDutiful(l: Thread, op: Op<Item>, v: View, e: Eff)
    requires DeliverTest(l, v, e) && (l.pc.tail == v.ch || v.recvq == [])
    ensures Dutiful(l, op, v, e)
  {
  }

  lemma DeliverTestDutiful(t: Tid, l: Thread, op: Op<Item>, v: View, e: Eff)
    requires DeliverTest(l, v, e)
    ensures Dutiful(l, op, v, e)
  {
    hide Dutiful;
    if l.pc.tail == v.ch || v.recvq == [] {
      DeliverExitsDutiful(l, op, v, e);
    } else {
      DeliverTakesDutiful(l, op, v, e);
    }
  }

  lemma DeliverPopDutiful(t: Tid, l: Thread, op: Op<Item>, v: View, e: Eff)
    requires DeliverPop(l, op, e)
    ensures Dutiful(l, op, v, e)
  {
  }

  lemma BeginRecvDutiful(t: Tid, l: Thread, op: Op<Item>, v: View, e: Eff, n: nat, mode: Mode, fast: bool)
    requires BeginRecv(l, v, e, n, mode, fast)
    ensures Dutiful(l, op, v, e)
  {
  }

  lemma AfterPopDutiful(t: Tid, l: Thread, op: Op<Item>, v: View, e: Eff, retry: bool)
    requires AfterPop(l, op, v, e, retry)
    ensures Dutiful(l, op, v, e)
  {
  }

  lemma LockRecvDutiful(t: Tid, l: Thread, op: Op<Item>, v: View, e: Eff)
    requires LockRecv(l, v, e)
    ensures Dutiful(l, op, v, e)
  {
  }

  lemma AfterPop1Dutiful(t: Tid, l: Thread, op: Op<Item>, v: View, e: Eff)
    requires AfterPop1(l, op, v, e)
    ensures Dutiful(l, op, v, e)
  {
  }

  lemma AfterPop2Dutiful(t: Tid, l: Thread, op: Op<Item>, v: View, e: Eff)
    requires AfterPop2(l, op, e)
    ensures Dutiful(l, op, v, e)
  {
  }

  lemma AfterHelpDutiful(t: Tid, l: Thread, op: Op<Item>, v: View, e: Eff)
    requires AfterHelp(l, op, e)
    ensures Dutiful(l, op, v, e)
  {
  }

  lemma LockAdmitDutiful(t: Tid, l: Thread, op: Op<Item>, v: View, e: Eff)
    requires LockAdmit(l, v, e)
    ensures Dutiful(l, op, v, e)
  {
  }

  lemma AdmitLoadDutiful(t: Tid, l: Thread, op: Op<Item>, v: View, e: Eff)
    requires AdmitLoad(l, v, e)
    ensures Dutiful(l, op, v, e)
  {
  }

  lemma AdmitTestDutiful(t: Tid, l: Thread, op: Op<Item>, v: View, e: Eff)
    requires AdmitTest(l, v, e)
    ensures Dutiful(l, op, v, e)
  {
  }

  lemma AdmitPushDutiful(t: Tid, l: Thread, op: Op<Item>, v: View, e: Eff)
    requires AdmitPush(l, op, e)
    ensures Dutiful(l, op, v, e)
  {
  }

  lemma WakeUpDutiful(t: Tid, l: Thread, op: Op<Item>, v: View, e: Eff)
    requires WakeUp(l, e)
    ensures Dutiful(l, op, v, e)
  {
  }

  lemma ExpireDutiful(t: Tid, l: Thread, op: Op<Item>, v: View, e: Eff)
    requires Expire(l, e)
    ensures Dutiful(l, op, v, e)
  {
  }

  lemma ExpireSendDutiful(t: Tid, l: Thread, op: Op<Item>, v: View, e: Eff)
    requires ExpireSend(t, l, v, e)
    ensures Dutiful(l, op, v, e)
  {
  }

  lemma ExpireRecvDutiful(t: Tid, l: Thread, op: Op<Item>, v: View, e: Eff)
    requires ExpireRecv(t, l, v, e)
    ensures Dutiful(l, op, v, e)
  {
  }

  lemma LeaveSendDutiful(t: Tid, l: Thread, op: Op<Item>, v: View, e: Eff)
    requires LeaveSend(l, e)
    ensures Dutiful(l, op, v, e)
  {
  }

  lemma LeaveRecvDutiful(t: Tid, l: Thread, op: Op<Item>, v: View, e: Eff)
    requires LeaveRecv(l, e)
    ensures Dutiful(l, op, v, e)
  {
  }

  lemma BeginCloseDutiful(t: Tid, l: Thread, op: Op<Item>, v: View, e: Eff)
    requires BeginClose(l, e)
    ensures Dutiful(l, op, v, e)
  {
  }

  lemma LockCloseDutiful(t: Tid, l: Thread, op: Op<Item>, v: View, e: Eff)
    requires LockClose(l, v, e)
    ensures Dutiful(l, op, v, e)
  {
  }

  lemma CloseSenderDutiful(t: Tid, l: Thread, op: Op<Item>, v: View, e: Eff)
    requires CloseSender(l, v, e)
    ensures Dutiful(l, op, v, e)
  {
  }

  lemma CloseReceiverDutiful(t: Tid, l: Thread, op: Op<Item>, v: View, e: Eff)
    requires CloseReceiver(l, v, e)
    ensures Dutiful(l, op, v, e)
  {
  }

  lemma ClosePopDutiful(t: Tid, l: Thread, op: Op<Item>, v: View, e: Eff)
    requires ClosePop(l, op, e)
    ensures Dutiful(l, op, v, e)
  {
  }

  lemma SendProgDutiful(t: Tid, l: Thread, op: Op<Item>, v: View, e: Eff)
    requires SendProg(t, l, op, v, e)
    ensures Dutiful(l, op, v, e)
  {
    hide BeginSend, GateSend, AfterPush, LockDeliver, LockSend, AfterPush1, AfterPush2, DeliverLoad, DeliverTest,
         DeliverPop, Dutiful;
    if exists vals: seq<Bytes>, mode: Mode :: BeginSend(t, l, v, e, vals, mode) {
      var vals: seq<Bytes>, mode: Mode :| BeginSend(t, l, v, e, vals, mode);
      BeginSendDutiful(t, l, op, v, e, vals, mode);
    } else if exists fast: bool :: GateSend(l, v, e, fast) {
      var fast: bool :| GateSend(l, v, e, fast);
      GateSendDutiful(t, l, op, v, e, fast);
    } else if exists retry: bool :: AfterPush(l, op, v, e, retry) {
      var retry: bool :| AfterPush(l, op, v, e, retry);
      AfterPushDutiful(t, l, op, v, e, retry);
    } else if LockDeliver(l, v, e) {
      LockDeliverDutiful(t, l, op, v, e);
    } else if LockSend(l, v, e) {
      LockSendDutiful(t, l, op, v, e);
    } else if AfterPush1(l, op, e) {
      AfterPush1Dutiful(t, l, op, v, e);
    } else if AfterPush2(l, op, e) {
      AfterPush2Dutiful(t, l, op, v, e);
    } else if DeliverLoad(l, v, e) {
      DeliverLoadDutiful(t, l, op, v, e);
    } else if DeliverTest(l, v, e) {
      DeliverTestDutiful(t, l, op, v, e);
    } else if DeliverPop(l, op, e) {
      DeliverPopDutiful(t, l, op, v, e);
    }
  }

  lemma RecvProgDutiful(t: Tid, l: Thread, op: Op<Item>, v: View, e: Eff)
    requires RecvProg(l, op, v, e)
    ensures Dutiful(l, op, v, e)
  {
    hide BeginRecv, AfterPop, LockRecv, AfterPop1, AfterPop2, AfterHelp, LockAdmit, AdmitLoad, AdmitTest, AdmitPush,
         Dutiful;
    if exists n: nat, mode: Mode, fast: bool :: BeginRecv(l, v, e, n, mode, fast) {
      var n: nat, mode: Mode, fast: bool :| BeginRecv(l, v, e, n, mode, fast);
      BeginRecvDutiful(t, l, op, v, e, n, mode, fast);
    } else if exists retry: bool :: AfterPop(l, op, v, e, retry) {
      var retry: bool :| AfterPop(l, op, v, e, retry);
      AfterPopDutiful(t, l, op, v, e, retry);
    } else if LockRecv(l, v, e) {
      LockRecvDutiful(t, l, op, v, e);
    } else if AfterPop1(l, op, v, e) {
      AfterPop1Dutiful(t, l, op, v, e);
    } else if AfterPop2(l, op, e) {
      AfterPop2Dutiful(t, l, op, v, e);
    } else if AfterHelp(l, op, e) {
      AfterHelpDutiful(t, l, op, v, e);
    } else if LockAdmit(l, v, e) {
      LockAdmitDutiful(t, l, op, v, e);
    } else if AdmitLoad(l, v, e) {
      AdmitLoadDutiful(t, l, op, v, e);
    } else if AdmitTest(l, v, e) {
      AdmitTestDutiful(t, l, op, v, e);
    } else if AdmitPush(l, op, e) {
      AdmitPushDutiful(t, l, op, v, e);
    }
  }

  lemma SleepProgDutiful(t: Tid, l: Thread, op: Op<Item>, v: View, e: Eff)
    requires SleepProg(t, l, v, e)
    ensures Dutiful(l, op, v, e)
  {
    hide WakeUp, Expire, ExpireSend, ExpireRecv, LeaveSend, LeaveRecv, Dutiful;
    if WakeUp(l, e) {
      WakeUpDutiful(t, l, op, v, e);
    } else if Expire(l, e) {
      ExpireDutiful(t, l, op, v, e);
    } else if ExpireSend(t, l, v, e) {
      ExpireSendDutiful(t, l, op, v, e);
    } else if ExpireRecv(t, l, v, e) {
      ExpireRecvDutiful(t, l, op, v, e);
    } else if LeaveSend(l, e) {
      LeaveSendDutiful(t, l, op, v, e);
    } else if LeaveRecv(l, e) {
      LeaveRecvDutiful(t, l, op, v, e);
    }
  }

  lemma CloseProgDutiful(t: Tid, l: Thread, op: Op<Item>, v: View, e: Eff)
    requires CloseProg(l, op, v, e)
    ensures Dutiful(l, op, v, e)
  {
    hide BeginClose, LockClose, CloseSender, CloseReceiver, ClosePop, Dutiful;
    if BeginClose(l, e) {
      BeginCloseDutiful(t, l, op, v, e);
    } else if LockClose(l, v, e) {
      LockCloseDutiful(t, l, op, v, e);
    } else if CloseSender(l, v, e) {
      CloseSenderDutiful(t, l, op, v, e);
    } else if CloseReceiver(l, v, e) {
      CloseReceiverDutiful(t, l, op, v, e);
    } else if ClosePop(l, op, e) {
      ClosePopDutiful(t, l, op, v, e);
    }
  }

  lemma ProgDutiful(t: Tid, l: Thread, op: Op<Item>, v: View, e: Eff)
    requires Prog(t, l, op, v, e)
    ensures Dutiful(l, op, v, e)
  {
    hide SendProg, RecvProg, SleepProg, CloseProg, Dutiful;
    if SendProg(t, l, op, v, e) {
      SendProgDutiful(t, l, op, v, e);
    } else if RecvProg(l, op, v, e) {
      RecvProgDutiful(t, l, op, v, e);
    } else if SleepProg(t, l, v, e) {
      SleepProgDutiful(t, l, op, v, e);
    } else {
      CloseProgDutiful(t, l, op, v, e);
    }
  }
}
