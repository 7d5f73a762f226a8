/** When an operation on a buffered channel may refuse, and with which result:
    every refusal of every execution is justified by something that was so while
    the request was under way. */
module ChannelResults {
  import opened Results
  import opened Seqs
  import opened Ring
  import opened RingTheorems
  import opened Channel
  import opened ChannelBase
  import opened ChannelInv
  import opened ChannelDuty
  import opened ChannelClose

  // ------------------------------------------------- what one step may answer

  predicate Patient(mode: Mode) { mode == Timed || mode == Forever }

  /** A send found the ring full and is past its retries. */
  predicate Thwarted(pc: Pc) {
    match pc
    case DLoad(k) => k == ThenPark
    case DTest(k, _) => k == ThenPark
    case DPop(k, _) => k == ThenPark
    case _ => false
  }

  predicate Refused(op: Op<Item>) { op.PRet? && op.sent == [] }
  predicate FoundNothing(op: Op<Item>) { op.CRet? && op.got == [] }

  predicate SendMayEnd(l: Thread, op: Op<Item>, closed: bool, res: Result) {
    if l.pc == SWoken then l.res == Some(res)
    else match res
      case Ok => true
      case WouldBlock =>
        || (l.mode == Try && Thwarted(l.pc))
        || (l.mode == Burst && ((l.pc == SGate && closed) || (l.pc == SPush && Refused(op))))
      case Closed => l.pc == SLock && closed
      case Timeout => false
  }

  predicate RecvMayEnd(l: Thread, op: Op<Item>, v: View, res: Result) {
    if l.pc == RWoken then l.res == Some(res)
    else match res
      case Ok => true
      case WouldBlock =>
        && FoundNothing(op)
        && if l.pc == RPop then l.mode == Burst else l.pc == RPop1 && l.mode == Try && !v.closed && v.sendq == []
      case Closed => l.pc == RPop1 && FoundNothing(op) && v.closed
      case Timeout => false
  }

  /** Where a thread may have come from. */
  predicate ArrivesFrom(t: Tid, l: Thread, op: Op<Item>, v: View, l': Thread) {
    && (l'.pc != Rest && l.pc != Rest ==>
          l'.mode == l.mode && l'.serial == l.serial && l'.rid == l.rid && l'.late == l.late)
    && (l.pc == Rest && l'.items != [] ==> l'.late == v.closed)
    && match l'.pc
       case DLoad(k) => k == ThenPark ==> Thwarted(l.pc) || (l.pc == SPush1 && Refused(op))
       case DTest(k, _) => k == ThenPark ==> Thwarted(l.pc)
       case DPop(k, _) => k == ThenPark ==> Thwarted(l.pc)
       case SPush2 => Patient(l.mode) && Thwarted(l.pc)
       case RPop2 => Patient(l.mode) && l.pc == RPop1
       case SParked => l.pc == SPush2 && l'.res == l.res
       case RParked => l.pc == RPop2 && l'.res == l.res
       case SExpired => l.pc == SParked && l.mode == Timed && l'.res == l.res
       case RExpired => l.pc == RParked && l.mode == Timed && l'.res == l.res
       case SWoken => if l.pc == SExpired && t in v.sendq then l'.res == Some(Timeout)
                      else (l.pc == SParked || l.pc == SExpired) && l'.res == l.res
       case RWoken => if l.pc == RExpired && t in v.recvq then l'.res == Some(Timeout)
                      else (l.pc == RParked || l.pc == RExpired) && l'.res == l.res
       case _ => l'.res == None
  }

  /** The result a step gives to the waiter it serves. */
  function Given(pc: Pc, op: Op<Item>): Result {
    if pc == KSend || (pc.KPop? && RetGot(op) == []) then Closed else Ok
  }

  ghost predicate Fair(t: Tid, l: Thread, op: Op<Item>, v: View, e: Eff) {
    && (e.note.Sent? ==> SendMayEnd(l, op, v.closed, e.note.res))
    && (e.note.Received? ==> RecvMayEnd(l, op, v, e.note.res))
    && ArrivesFrom(t, l, op, v, e.l) && (Asleep(l) || Dozing(l) ==> e.note.Quiet?)
    && (e.sq.WakeHand? || e.sq.WakeHead? || e.rq.WakeHand? ==> e.res == Given(l.pc, op))
    && !e.rq.WakeHead? && (e.rq.WakeHand? ==> op.CRet?)
  }

  // ------------------------------------------------------ every step is fair

  lemma FastSendFair(t: Tid, l: Thread, op: Op<Item>, v: View, e: Eff, vals: seq<Bytes>, mode: Mode, b: bool)
    requires RequestOk(l, t) && (BeginSend(t, l, v, e, vals, mode) || GateSend(l, v, e, b) || AfterPush(l, op, v, e, b))
    ensures Fair(t, l, op, v, e)
  {
  }

  lemma SlowSendFair(t: Tid, l: Thread, op: Op<Item>, v: View, e: Eff)
    requires RequestOk(l, t) && (LockSend(l, v, e) || AfterPush1(l, op, e) || AfterPush2(l, op, e))
    ensures Fair(t, l, op, v, e)
  {
  }

  lemma DeliverTestFair(t: Tid, l: Thread, op: Op<Item>, v: View, e: Eff)
    requires RequestOk(l, t) && DeliverTest(l, v, e)
    ensures Fair(t, l, op, v, e)
  {
  }

  lemma DeliverLoadFair(t: Tid, l: Thread, op: Op<Item>, v: View, e: Eff)
    requires RequestOk(l, t) && (LockDeliver(l, v, e) || DeliverLoad(l, v, e))
    ensures Fair(t, l, op, v, e)
  {
  }

  lemma DeliverPopFair(t: Tid, l: Thread, op: Op<Item>, v: View, e: Eff)
    requires RequestOk(l, t) && DeliverPop(l, op, e)
    ensures Fair(t, l, op, v, e)
  {
  }

  lemma SendProgFair(t: Tid, l: Thread, op: Op<Item>, v: View, e: Eff)
    requires RequestOk(l, t) && SendProg(t, l, op, v, e)
    ensures Fair(t, l, op, v, e)
  {
    hide BeginSend, GateSend, AfterPush, LockDeliver, LockSend, AfterPush1, AfterPush2, DeliverLoad, DeliverTest,
         DeliverPop, RequestOk, Fair;
    if vals: seq<Bytes>, mode: Mode :| BeginSend(t, l, v, e, vals, mode) {
      FastSendFair(t, l, op, v, e, vals, mode, false);
    } else if fast: bool :| GateSend(l, v, e, fast) {
      FastSendFair(t, l, op, v, e, [], Try, fast);
    } else if retry: bool :| AfterPush(l, op, v, e, retry) {
      FastSendFair(t, l, op, v, e, [], Try, retry);
    } else if LockDeliver(l, v, e) || DeliverLoad(l, v, e) {
      DeliverLoadFair(t, l, op, v, e);
    } else if DeliverTest(l, v, e) {
      DeliverTestFair(t, l, op, v, e);
    } else if DeliverPop(l, op, e) {
      DeliverPopFair(t, l, op, v, e);
    } else {
      SlowSendFair(t, l, op, v, e);
    }
  }

  lemma FastRecvFair(t: Tid, l: Thread, op: Op<Item>, v: View, e: Eff, n: nat, mode: Mode, b: bool)
    requires RequestOk(l, t) && (BeginRecv(l, v, e, n, mode, b) || AfterPop(l, op, v, e, b))
    ensures Fair(t, l, op, v, e)
  {
  }

  lemma SlowRecvFair(t: Tid, l: Thread, op: Op<Item>, v: View, e: Eff)
    requires RequestOk(l, t) && (LockRecv(l, v, e) || AfterPop1(l, op, v, e) || AfterPop2(l, op, e))
    ensures Fair(t, l, op, v, e)
  {
  }

  lemma AdmitTestFair(t: Tid, l: Thread, op: Op<Item>, v: View, e: Eff)
    requires RequestOk(l, t) && (LockAdmit(l, v, e) || AdmitLoad(l, v, e) || AdmitTest(l, v, e))
    ensures Fair(t, l, op, v, e)
  {
  }

  lemma AdmitPushFair(t: Tid, l: Thread, op: Op<Item>, v: View, e: Eff)
    requires RequestOk(l, t) && (AfterHelp(l, op, e) || AdmitPush(l, op, e))
    ensures Fair(t, l, op, v, e)
  {
  }

  lemma RecvProgFair(t: Tid, l: Thread, op: Op<Item>, v: View, e: Eff)
    requires RequestOk(l, t) && RecvProg(l, op, v, e)
    ensures Fair(t, l, op, v, e)
  {
    hide BeginRecv, AfterPop, LockRecv, AfterPop1, AfterPop2, AfterHelp, LockAdmit, AdmitLoad, AdmitTest, AdmitPush,
         RequestOk, Fair;
    if n: nat, mode: Mode, fast: bool :| BeginRecv(l, v, e, n, mode, fast) {
      FastRecvFair(t, l, op, v, e, n, mode, fast);
    } else if retry: bool :| AfterPop(l, op, v, e, retry) {
      FastRecvFair(t, l, op, v, e, 0, Try, retry);
    } else if LockAdmit(l, v, e) || AdmitLoad(l, v, e) || AdmitTest(l, v, e) {
      AdmitTestFair(t, l, op, v, e);
    } else if AfterHelp(l, op, e) || AdmitPush(l, op, e) {
      AdmitPushFair(t, l, op, v, e);
    } else {
      SlowRecvFair(t, l, op, v, e);
    }
  }

  lemma WakeFair(t: Tid, l: Thread, op: Op<Item>, v: View, e: Eff)
    requires RequestOk(l, t) && (WakeUp(l, e) || LeaveSend(l, e) || LeaveRecv(l, e))
    ensures Fair(t, l, op, v, e)
  {
  }

  lemma ExpireFair(t: Tid, l: Thread, op: Op<Item>, v: View, e: Eff)
    requires RequestOk(l, t) && (Expire(l, e) || ExpireSend(t, l, v, e) || ExpireRecv(t, l, v, e))
    ensures Fair(t, l, op, v, e)
  {
  }

  lemma CloseFair(t: Tid, l: Thread, op: Op<Item>, v: View, e: Eff)
    requires RequestOk(l, t) && (BeginClose(l, e) || LockClose(l, v, e) || CloseSender(l, v, e))
    ensures Fair(t, l, op, v, e)
  {
  }

  lemma CloseRecvFair(t: Tid, l: Thread, op: Op<Item>, v: View, e: Eff)
    requires RequestOk(l, t) && (CloseReceiver(l, v, e) || ClosePop(l, op, e))
    ensures Fair(t, l, op, v, e)
  {
  }

  lemma ProgFair(t: Tid, l: Thread, op: Op<Item>, v: View, e: Eff)
    requires RequestOk(l, t) && Prog(t, l, op, v, e)
    ensures Fair(t, l, op, v, e)
  {
    hide SendProg, RecvProg, WakeUp, Expire, ExpireSend, ExpireRecv, LeaveSend, LeaveRecv, BeginClose, LockClose,
         CloseSender, CloseReceiver, ClosePop, RequestOk, Fair;
    if SendProg(t, l, op, v, e) {
      SendProgFair(t, l, op, v, e);
    } else if RecvProg(l, op, v, e) {
      RecvProgFair(t, l, op, v, e);
    } else if BeginClose(l, e) || LockClose(l, v, e) || CloseSender(l, v, e) {
      CloseFair(t, l, op, v, e);
    } else if CloseReceiver(l, v, e) || ClosePop(l, op, e) {
      CloseRecvFair(t, l, op, v, e);
    } else if WakeUp(l, e) || LeaveSend(l, e) || LeaveRecv(l, e) {
      WakeFair(t, l, op, v, e);
    } else {
      ExpireFair(t, l, op, v, e);
    }
  }

  // ------------------------------------------------------ results of waiters

  /** A control step leaves every other thread alone or serves it. */
  lemma OthersAfter(c: Chan, c': Chan, t: Tid, e: Eff, u: Tid)
    requires Base(c) && Control(c, c', t, e) && u in c.th && u != t
    ensures u in c'.th
    ensures if SendServed(c, t, e) == Some(u) || RecvServed(c, t, e) == Some(u) then
              && c'.th[u] == c.th[u].(res := Some(Given(c.th[t].pc, c.ring.ops[t])), done := e.got)
              && c.th[u].res == None
            else c'.th[u] == c.th[u]
    ensures SendServed(c, t, e) == Some(u) ==> Asleep(c.th[u])
    ensures RecvServed(c, t, e) == Some(u) ==> Dozing(c.th[u]) && e.rq.WakeHand? && RecvHand(c.th[t].pc) == Some(u)
  {
    hide Base, Prog, Post, Record, QApply, RequestOk, Lawful, Fair, Given, ViewOf, SetOp, LockAfter;
    ControlPost(c, c', t, e);
    ControlFair(c, c', t, e);
    PostLawful(t, c.th[t], c.ring.ops[t], ViewOf(c, t), e);
    ServedAsleep(c, t, e);
    FairGift(t, c.th[t], c.ring.ops[t], ViewOf(c, t), e);
  }

  lemma FairGift(t: Tid, l: Thread, op: Op<Item>, v: View, e: Eff)
    requires Fair(t, l, op, v, e)
    ensures e.sq.WakeHand? || e.sq.WakeHead? || e.rq.WakeHand? ==> e.res == Given(l.pc, op)
    ensures !e.rq.WakeHead? && (e.rq.WakeHand? ==> op.CRet?)
  {
  }

  lemma ControlFair(c: Chan, c': Chan, t: Tid, e: Eff)
    requires Base(c) && Control(c, c', t, e)
    ensures Fair(t, c.th[t], c.ring.ops[t], ViewOf(c, t), e)
  {
    hide RequestOk, OpFits, Inv, Prog, Apply, ViewOf, Fair;
    ProgFair(t, c.th[t], c.ring.ops[t], ViewOf(c, t), e);
  }

  /** The result another thread sets is `Closed` from a closer that has nothing
      in its hands to give, and `Ok` from everybody else. */
  lemma ResultGiven(c: Chan, c': Chan, t: Tid, u: Tid, x: Result)
    requires Base(c) && StepBy(c, c', t) && t in c.th && t in c.ring.ops && u in c.th && u != t
    requires c.th[u].res == None && u in c'.th && c'.th[u].res == Some(x)
    ensures x == if c.th[t].pc == KSend || (c.th[t].pc.KPop? && RetGot(c.ring.ops[t]) == []) then Closed else Ok
  {
    hide Base, Control, Step;
    if e :| Control(c, c', t, e) { OthersAfter(c, c', t, e, u); }
  }

  // --------------------------------------------------- what a request has met

  /** A receive is under way and no committed value is unreserved. */
  ghost predicate EmptyAt(c: Chan, u: Tid) { u in c.th && c.th[u].want > 0 && c.ring.m.ch == c.ring.m.pt }

  /** A send is under way whose push reads the ring as full. */
  ghost predicate FullAt(c: Chan, u: Tid) {
    && u in c.th && u in c.ring.ops && c.th[u].items != [] && c.ring.ops[u].PLoadTail?
    && var op := c.ring.ops[u]; op.ph - c.ring.m.ct == c.ring.m.cap || (!op.burst && op.ph < c.ring.m.ct)
  }

  /** A timed request has expired and is still queued. */
  ghost predicate LapsedAt(c: Chan, u: Tid) {
    && u in c.th && c.th[u].mode == Timed
    && ((c.th[u].pc == SExpired && u in c.sh.sendq) || (c.th[u].pc == RExpired && u in c.sh.recvq))
  }

  /** The threads whose current request has met these. */
  datatype Past = Past(empty: set<Tid>, full: set<Tid>, lapsed: set<Tid>)

  ghost predicate PlaceTold(l: Thread, op: Op<Item>, p: Past, u: Tid) {
    match l.pc
    case RPop | RPop1 | RPop2 => FoundNothing(op) ==> u in p.empty
    case KPop(r) => FoundNothing(op) ==> r in p.empty
    case SPush | SPush1 => Refused(op) ==> u in p.full
    case DLoad(k) => k == ThenPark ==> u in p.full
    case DTest(k, _) => k == ThenPark ==> u in p.full
    case DPop(k, _) => k == ThenPark ==> u in p.full
    case _ => true
  }

  ghost predicate ResultTold(l: Thread, closed: bool, p: Past, u: Tid) {
    && (l.pc.SendReg() || l.pc.RecvReg() ==> Patient(l.mode))
    && (l.pc == SExpired || l.pc == RExpired ==> l.mode == Timed)
    && (l.res.Some? ==>
          match l.res.value
          case Ok => true
          case Closed => closed && (Dozing(l) || l.pc == RWoken ==> u in p.empty)
          case Timeout => u in p.lapsed && l.mode == Timed
          case WouldBlock => false)
  }

  ghost predicate Told(c: Chan, p: Past) {
    && c.ring.ops.Keys == c.th.Keys
    && (forall u <- c.th :: PlaceTold(c.th[u], c.ring.ops[u], p, u))
    && forall u <- c.th :: ResultTold(c.th[u], c.sh.closed, p, u)
  }

  ghost predicate SameRequest(l: Thread, l': Thread) { l'.serial == l.serial && l'.rid == l.rid }

  /** What a request has met stays met while it is under way. */
  ghost predicate Remembers(c: Chan, c': Chan, p: Past, p': Past) {
    forall u <- c.th :: u in c'.th && SameRequest(c.th[u], c'.th[u]) ==>
      && (u in p.empty || EmptyAt(c, u) ==> u in p'.empty)
      && (u in p.full || FullAt(c, u) ==> u in p'.full)
      && (u in p.lapsed || LapsedAt(c, u) ==> u in p'.lapsed)
  }

  lemma ThreadRequest(c: Chan, t: Tid)
    requires Base(c) && t in c.th
    ensures RequestOk(c.th[t], t)
  {
    hide RequestOk, OpFits, Inv;
  }

  /** A ring operation that returns empty-handed has met the reason. */
  lemma RingMeets(c: Chan, c': Chan, t: Tid)
    requires Base(c) && RingStep(c, c', t)
    ensures t in c.th && t in c.ring.ops && t in c'.ring.ops && c'.ring.ops == c.ring.ops[t := c'.ring.ops[t]]
    ensures c'.th == c.th && c'.sh == c.sh
    ensures FoundNothing(c'.ring.ops[t]) ==> c.ring.m.ch == c.ring.m.pt
    ensures Refused(c'.ring.ops[t]) ==>
      var op, m := c.ring.ops[t], c.ring.m; op.PLoadTail? && (op.ph - m.ct == m.cap || (!op.burst && op.ph < m.ct))
  {
    hide ThreadsOk, QueueOk, OpenOk, LockOk, AllStored, Covered;
    assert OpOk(c.ring.m, t, c.ring.ops[t]);
  }

  lemma RingStepTold(c: Chan, c': Chan, t: Tid, p: Past, p': Past)
    requires Base(c) && RingStep(c, c', t) && Told(c, p) && Remembers(c, c', p, p')
    ensures Told(c', p')
  {
    hide RingStep, Base;
    RingMeets(c, c', t);
    forall u <- c'.th ensures PlaceTold(c'.th[u], c'.ring.ops[u], p', u) {
      assert PlaceTold(c.th[u], c.ring.ops[u], p, u);
      HandAsleep(c, u);
      ThreadRequest(c, u);
      if RecvHand(c.th[u].pc).Some? { ThreadRequest(c, RecvHand(c.th[u].pc).value); }
    }
    forall u <- c'.th ensures ResultTold(c'.th[u], c'.sh.closed, p', u) {
      assert ResultTold(c.th[u], c.sh.closed, p, u);
    }
  }

  /** The acting thread carries what it has met to its next place. */
  lemma OwnTold(t: Tid, l: Thread, op: Op<Item>, v: View, e: Eff, p: Past, p': Past, closed: bool)
    requires Fair(t, l, op, v, e) && e.op.Fresh() && (e.l.pc != Rest ==> e.note.Quiet?) && (v.closed ==> closed)
    requires PlaceTold(l, op, p, t) && ResultTold(l, v.closed, p, t) && PlaceOk(l) && PlaceOk(e.l)
    requires e.note.Quiet? ==> (t in p.empty ==> t in p'.empty) && (t in p.full ==> t in p'.full)
    requires e.note.Quiet? && (t in p.lapsed || (l.mode == Timed && Overdue(t, l, v))) ==> t in p'.lapsed
    ensures PlaceTold(e.l, e.op, p', t) && ResultTold(e.l, closed, p', t)
  {
  }

  predicate Overdue(t: Tid, l: Thread, v: View) {
    (l.pc == SExpired && t in v.sendq) || (l.pc == RExpired && t in v.recvq)
  }

  /** A control step ends the acting thread's request or keeps it; everybody else's goes on. */
  lemma RequestsGoOn(c: Chan, c': Chan, t: Tid, e: Eff)
    requires Base(c) && Control(c, c', t, e)
    ensures t in c.th && c'.th.Keys == c.th.Keys && c'.th[t] == e.l
    ensures forall u <- c.th :: u != t || e.note.Quiet? ==> SameRequest(c.th[u], c'.th[u])
    ensures (Asleep(c.th[t]) || Dozing(c.th[t]) ==> e.note.Quiet?) && (e.l.pc != Rest ==> e.note.Quiet?)
    ensures e.op.Fresh() && PlaceOk(e.l) && c'.sh.closed == (c.sh.closed || e.close)
  {
    hide Base, Control, Dutiful, Lawful, WaiterLedger, OpFits, PlaceOk, ViewOf, Given, ArrivesFrom, SendMayEnd,
         RecvMayEnd;
    ControlFrame(c, c', t, e);
    ControlFair(c, c', t, e);
    forall u <- c.th | u != t ensures SameRequest(c.th[u], c'.th[u]) { OthersAfter(c, c', t, e, u); }
  }

  lemma OtherPlaceTold(c: Chan, c': Chan, t: Tid, e: Eff, u: Tid, p: Past, p': Past)
    requires Base(c) && Control(c, c', t, e) && Told(c, p) && Remembers(c, c', p, p') && u in c.th && u != t
    ensures u in c'.th && u in c'.ring.ops && PlaceTold(c'.th[u], c'.ring.ops[u], p', u)
  {
    hide Base, Control, Post, Dutiful, ViewOf, RequestOk, ResultTold, PlaceOk, EmptyAt, FullAt, LapsedAt;
    ControlFrame(c, c', t, e);
    RequestsGoOn(c, c', t, e);
    HandAsleep(c, u);
    assert PlaceTold(c.th[u], c.ring.ops[u], p, u);
  }

  lemma OtherResultTold(c: Chan, c': Chan, t: Tid, e: Eff, u: Tid, p: Past, p': Past)
    requires Base(c) && Care(c) && Control(c, c', t, e) && Told(c, p) && Remembers(c, c', p, p') && u in c.th && u != t
    ensures u in c'.th && ResultTold(c'.th[u], c'.sh.closed, p', u)
  {
    hide Base, Control, Fair, ViewOf, PlaceOk, EmptyAt, FullAt, LapsedAt, Care;
    RequestsGoOn(c, c', t, e);
    OthersAfter(c, c', t, e, u);
    ControlFair(c, c', t, e);
    FairGift(t, c.th[t], c.ring.ops[t], ViewOf(c, t), e);
    CloserClosed(c, t);
    assert ResultTold(c.th[u], c.sh.closed, p, u) && PlaceTold(c.th[t], c.ring.ops[t], p, t);
  }

  lemma CloserClosed(c: Chan, t: Tid)
    requires Base(c) && Care(c) && t in c.th
    ensures c.th[t].pc == KSend || c.th[t].pc.KPop? ==> c.sh.closed
  {
    hide Base, RoleOk, SendRegs, RecvRegs;
    HandAsleep(c, t);
  }

  lemma ControlTold(c: Chan, c': Chan, t: Tid, e: Eff, p: Past, p': Past)
    requires Base(c) && Care(c) && Control(c, c', t, e) && Told(c, p) && Remembers(c, c', p, p')
    ensures Told(c', p')
  {
    hide Base, Care, Control, Post, Dutiful, Fair, PlaceOk, PlaceTold, ResultTold, QApply, Draining;
    ControlFrame(c, c', t, e);
    RequestsGoOn(c, c', t, e);
    ControlFair(c, c', t, e);
    ThreadRequest(c, t);
    assert PlaceTold(c.th[t], c.ring.ops[t], p, t) && ResultTold(c.th[t], c.sh.closed, p, t);
    OwnTold(t, c.th[t], c.ring.ops[t], ViewOf(c, t), e, p, p', c'.sh.closed);
    hide Remembers, Told;
    forall u <- c'.th | u != t
      ensures PlaceTold(c'.th[u], c'.ring.ops[u], p', u) && ResultTold(c'.th[u], c'.sh.closed, p', u)
    {
      OtherPlaceTold(c, c', t, e, u, p, p');
      OtherResultTold(c, c', t, e, u, p, p');
    }
    TellAll(c', p');
  }

  lemma TellAll(c: Chan, p: Past)
    requires c.ring.ops.Keys == c.th.Keys
    requires forall u <- c.th :: PlaceTold(c.th[u], c.ring.ops[u], p, u) && ResultTold(c.th[u], c.sh.closed, p, u)
    ensures Told(c, p)
  {
    hide PlaceTold, ResultTold;
  }

  // -------------------------------------------------------------- executions

  /** During the current request of u, at some moment: the ring was empty, ... */
  ghost predicate MetEmpty(run: seq<Chan>, i: nat, u: Tid)
    requires i < |run| && u in run[i].th
  {
    exists j: nat :: j <= i && EmptyAt(run[j], u) && SameRequest(run[j].th[u], run[i].th[u])
  }

  /** ... the push read the ring as full, ... */
  ghost predicate MetFull(run: seq<Chan>, i: nat, u: Tid)
    requires i < |run| && u in run[i].th
  {
    exists j: nat :: j <= i && FullAt(run[j], u) && SameRequest(run[j].th[u], run[i].th[u])
  }

  /** ... its time was up and it was still queued. */
  ghost predicate MetLapse(run: seq<Chan>, i: nat, u: Tid)
    requires i < |run| && u in run[i].th
  {
    exists j: nat :: j <= i && LapsedAt(run[j], u) && SameRequest(run[j].th[u], run[i].th[u])
  }

  ghost function PastOf(run: seq<Chan>, i: nat): Past
    requires i < |run|
  {
    Past(set u | u in run[i].th && MetEmpty(run, i, u), set u | u in run[i].th && MetFull(run, i, u),
         set u | u in run[i].th && MetLapse(run, i, u))
  }

  lemma PastGrows(run: seq<Chan>, i: nat)
    requires i + 1 < |run|
    ensures Remembers(run[i], run[i + 1], PastOf(run, i), PastOf(run, i + 1))
  {
    hide EmptyAt, FullAt, LapsedAt;
  }

  lemma {:induction false} RunTold(run: seq<Chan>, i: nat)
    requires Channel.Run(run) && i < |run|
    ensures Told(run[i], PastOf(run, i))
  {
    hide Told, PastOf, Base, Care, RingStep, Control, Remembers;
    if i == 0 {
      InitTold(run[0], PastOf(run, 0));
    } else {
      RunTold(run, i - 1);
      RunBase(run, i - 1);
      RunCare(run, i - 1);
      PastGrows(run, i - 1);
      var c, c' := run[i - 1], run[i];
      assert Channel.Next(c, c');
      var t: Tid :| StepBy(c, c', t);
      if RingStep(c, c', t) {
        RingStepTold(c, c', t, PastOf(run, i - 1), PastOf(run, i));
      } else {
        var e :| Control(c, c', t, e);
        ControlTold(c, c', t, e, PastOf(run, i - 1), PastOf(run, i));
      }
    }
  }

  lemma InitTold(c: Chan, p: Past)
    requires Init(c)
    ensures Told(c, p)
  {
  }

  /** A request that has not returned its answer is under way. */
  lemma Answers(c: Chan, c': Chan, t: Tid) returns (e: Eff)
    requires StepBy(c, c', t) && (|c'.log.sends| > |c.log.sends| || |c'.log.recvs| > |c.log.recvs|)
    ensures Control(c, c', t, e)
    ensures |c'.log.sends| > |c.log.sends| ==>
      e.note.Sent? && Last(c'.log.sends) == SendRec(c.th[t].items, c.th[t].late, e.note.k, e.note.res)
    ensures |c'.log.recvs| > |c.log.recvs| ==>
      e.note.Received? && Last(c'.log.recvs) == RecvRec(t, c.th[t].rid, e.note.got, e.note.res)
  {
    hide Prog, Step, Leaves, ViewOf, QApply, Wake;
    e :| Control(c, c', t, e);
  }

  /** What thread t knows when its request returns. */
  lemma Returning(run: seq<Chan>, i: nat, t: Tid) returns (e: Eff)
    requires Channel.Run(run) && i + 1 < |run| && StepBy(run[i], run[i + 1], t)
    requires var c, c' := run[i], run[i + 1]; |c'.log.sends| > |c.log.sends| || |c'.log.recvs| > |c.log.recvs|
    ensures Control(run[i], run[i + 1], t, e) && t in run[i].th && t in run[i].ring.ops
    ensures var c, c' := run[i], run[i + 1];
      && (|c'.log.sends| > |c.log.sends| ==>
            e.note.Sent? && Last(c'.log.sends) == SendRec(c.th[t].items, c.th[t].late, e.note.k, e.note.res))
      && (|c'.log.recvs| > |c.log.recvs| ==>
            e.note.Received? && Last(c'.log.recvs) == RecvRec(t, c.th[t].rid, e.note.got, e.note.res))
    ensures var l, op := run[i].th[t], run[i].ring.ops[t];
      && Fair(t, l, op, ViewOf(run[i], t), e) && PlaceOk(l) && (NeedsOpen(l.pc) ==> !run[i].sh.closed)
      && PlaceTold(l, op, PastOf(run, i), t) && ResultTold(l, run[i].sh.closed, PastOf(run, i), t)
  {
    hide Channel.Run, Care, StepBy, PastOf, PlaceTold, ResultTold, Fair, PlaceOk, Inv, LockOk, QueueOk, OpFits;
    RunTold(run, i);
    RunBase(run, i);
    e := Answers(run[i], run[i + 1], t);
    ControlFair(run[i], run[i + 1], t, e);
  }

  /** A send refuses only for a reason that arose while it was under way. */
  lemma RefusedSends(run: seq<Chan>, i: nat, t: Tid)
    requires Channel.Run(run) && i + 1 < |run| && StepBy(run[i], run[i + 1], t)
    requires |run[i + 1].log.sends| > |run[i].log.sends|
    ensures t in run[i].th
    ensures var c, l, r := run[i], run[i].th[t], Last(run[i + 1].log.sends);
      && r.items == l.items
      && (r.res == WouldBlock && l.mode != Burst ==> l.mode == Try && MetFull(run, i, t) && !c.sh.closed)
      && (r.res == WouldBlock && l.mode == Burst ==> MetFull(run, i, t) || c.sh.closed)
      && (r.res == Closed ==> c.sh.closed)
      && (r.res == Timeout ==> l.mode == Timed && MetLapse(run, i, t))
  {
    hide Channel.Run, StepBy, Control, MetFull, MetEmpty, MetLapse, ArrivesFrom, Given;
    var e := Returning(run, i, t);
  }

  /** A receive refuses only for a reason that arose while it was under way: in
      particular it reports neither `WouldBlock` nor `Closed` unless the ring was
      empty at some moment in between, so a closed channel is drained first. */
  lemma RefusedReceives(run: seq<Chan>, i: nat, t: Tid)
    requires Channel.Run(run) && i + 1 < |run| && StepBy(run[i], run[i + 1], t)
    requires |run[i + 1].log.recvs| > |run[i].log.recvs|
    ensures t in run[i].th
    ensures var c, l, r := run[i], run[i].th[t], Last(run[i + 1].log.recvs);
      && r.to == t && r.rid == l.rid
      && (r.res == WouldBlock ==> (l.mode == Try || l.mode == Burst) && MetEmpty(run, i, t))
      && (r.res == WouldBlock && l.mode == Try ==> !c.sh.closed && c.sh.sendq == [])
      && (r.res == Closed ==> c.sh.closed && MetEmpty(run, i, t))
      && (r.res == Timeout ==> l.mode == Timed && MetLapse(run, i, t))
  {
    hide Channel.Run, StepBy, Control, MetFull, MetEmpty, MetLapse, ArrivesFrom, Given;
    var e := Returning(run, i, t);
  }

  /** Only a request with time to wait is ever registered as a waiter or asleep. */
  lemma OnlyPatientWait(run: seq<Chan>, i: nat, u: Tid)
    requires Channel.Run(run) && i < |run| && u in run[i].th && (run[i].th[u].pc.SendReg() || run[i].th[u].pc.RecvReg())
    ensures run[i].th[u].mode == Timed || run[i].th[u].mode == Forever
  {
    hide Channel.Run, PastOf, PlaceTold;
    RunTold(run, i);
  }

  /** Without a timeout a blocking request ends in success or because of a close. */
  lemma ForeverAnswers(run: seq<Chan>, i: nat, t: Tid)
    requires Channel.Run(run) && i + 1 < |run| && StepBy(run[i], run[i + 1], t)
    requires t in run[i].th && run[i].th[t].mode == Forever
    ensures var c, c' := run[i], run[i + 1];
      && (|c'.log.sends| > |c.log.sends| ==> Last(c'.log.sends).res == Ok || Last(c'.log.sends).res == Closed)
      && (|c'.log.recvs| > |c.log.recvs| ==> Last(c'.log.recvs).res == Ok || Last(c'.log.recvs).res == Closed)
  {
    hide Channel.Run, StepBy, MetFull, MetEmpty, MetLapse;
    if |run[i + 1].log.sends| > |run[i].log.sends| { RefusedSends(run, i, t); }
    if |run[i + 1].log.recvs| > |run[i].log.recvs| { RefusedReceives(run, i, t); }
  }

  /** A send counts as late exactly if the channel was closed when it began. */
  lemma {:induction false} LateFromTheStart(run: seq<Chan>, b: nat, i: nat, t: Tid)
    requires Channel.Run(run) && b < i < |run| && t in run[b].th && run[b].th[t].pc == Rest
    requires forall k :: b < k <= i ==> t in run[k].th && run[k].th[t].items != []
    ensures run[i].th[t].late == run[b].sh.closed
  {
    hide Base, RingStep, Control, Init;
    var c, c' := run[i - 1], run[i];
    if i - 1 > b { LateFromTheStart(run, b, i - 1, t); }
    RunBase(run, i - 1);
    ThreadRequest(c, t);
    assert Channel.Next(c, c');
    var s: Tid :| StepBy(c, c', s);
    hide Channel.Run;
    if RingStep(c, c', s) {
      RingMeets(c, c', s);
    } else {
      var e :| Control(c, c', s, e);
      LateKept(c, c', s, e, t);
    }
  }

  lemma LateKept(c: Chan, c': Chan, s: Tid, e: Eff, t: Tid)
    requires Base(c) && Control(c, c', s, e) && t in c.th && t in c'.th && c'.th[t].items != []
    requires c.th[t].items != [] || c.th[t].pc == Rest
    ensures c'.th[t].late == if c.th[t].pc == Rest then c.sh.closed else c.th[t].late
  {
    hide Base, Control;
    ThreadRequest(c, t);
    if s == t {
      ControlFair(c, c', t, e);
      RequestsGoOn(c, c', t, e);
    } else {
      OthersAfter(c, c', s, e, t);
    }
  }
}
