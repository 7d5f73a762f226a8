/** Progress: what a thread inside a request can be waiting for, and that in
    every reachable state somebody who is not asleep can move. */
module ChannelProgress {
  import opened Results
  import opened Ring
  import opened RingTheorems
  import opened Channel
  import opened ChannelBase
  import opened ChannelInv

  ghost predicate CanMove(c: Chan, t: Tid) { exists c' :: StepBy(c, c', t) }

  /** Places that wait for the lock. */
  predicate AtLock(pc: Pc) {
    match pc case SDeliverLock | SLock | SExpired | RLock | RExpired | RAdmitLock | KLock => true case _ => false
  }

  /** Parked, unserved, and without a timeout. */
  predicate Parked(l: Thread) { (l.pc == SParked || l.pc == RParked) && l.res == None && l.mode != Timed }

  /** In Phase 3 of a ring operation, behind the thread whose turn it is. */
  predicate AwaitsTurn(m: Mem<Item>, op: Op<Item>) {
    || (op.PWrite? && op.done == |op.vals| && op.lo != m.pt)
    || (op.CRead? && |op.got| == op.k && op.lo != m.ct)
  }

  ghost predicate Waits(c: Chan, t: Tid)
    requires t in c.th && t in c.ring.ops
  {
    (AtLock(c.th[t].pc) && c.sh.lock != None) || Parked(c.th[t]) || AwaitsTurn(c.ring.m, c.ring.ops[t])
  }

  // ------------------------------------------------- the steps of a program

  /** What a thread may rely on at a place it does not wait at. */
  ghost predicate Ready(l: Thread, op: Op<Item>, v: View) {
    && PlaceOk(l) && !Parked(l) && (AtLock(l.pc) ==> v.free)
    && (l.pc.Pushing() ==> op.PRet?) && (l.pc.Popping() ==> op.CRet?)
  }

  predicate Sends(pc: Pc) {
    match pc
    case SGate | SPush | SDeliverLock | SLock | SPush1 | SPush2 | DLoad(_) | DTest(_, _) | DPop(_, _) => true
    case _ => false
  }

  predicate Receives(pc: Pc) {
    match pc
    case RPop | RAdmitLock | RLock | RPop1 | RHelp(_) | RPop2 | ALoad | ATest(_) | APush(_) => true
    case _ => false
  }

  lemma SendMoves(t: Tid, l: Thread, op: Op<Item>, v: View) returns (e: Eff)
    requires Ready(l, op, v) && Sends(l.pc)
    ensures SendProg(t, l, op, v, e)
  {
    match l.pc
    case SGate =>
      e := if !v.closed then Push(l.(pc := SPush), l.mode == Burst, l.items)
           else if l.mode == Burst then EndSend(l, 0, WouldBlock) else Go(l.(pc := SLock));
      assert GateSend(l, v, e, true);
    case SPush =>
      e := if op.sent == [] then (if l.mode == Burst then EndSend(l, 0, WouldBlock) else Go(l.(pc := SLock)))
           else if v.recvCnt != 0 then Go(l.(pc := SDeliverLock, done := op.sent)) else EndSend(l, |op.sent|, Ok);
      assert AfterPush(l, op, v, e, false);
    case SDeliverLock => e := Go(l.(pc := DLoad(Finish)));
    case SLock => e := if v.closed then EndSend(l, 0, Closed) else Push(l.(pc := SPush1), false, l.items);
    case SPush1 => e := Go(l.(pc := DLoad(if op.sent == [] then ThenPark else Finish), done := op.sent));
    case SPush2 =>
      e := if op.sent == [] then Go(l.(pc := SParked))
           else Go(l.(pc := DLoad(Finish), done := op.sent)).(sq := Quit, dsend := -1);
    case DLoad(k) => e := Go(l.(pc := DTest(k, v.pt)));
    case DTest(k, tail) =>
      e := if tail == v.ch || v.recvq == [] then ExitDeliver(l, k)
           else Pop(l.(pc := DPop(k, v.recvq[0])), 1).(rq := Take);
    case DPop(k, r) =>
      e := if op.got == [] then ExitDeliver(l, k).(rq := PutBack)
           else Go(l.(pc := DLoad(k))).(rq := WakeHand, res := Ok, got := op.got);
  }

  lemma RecvMoves(l: Thread, op: Op<Item>, v: View) returns (e: Eff)
    requires Ready(l, op, v) && Receives(l.pc)
    ensures RecvProg(l, op, v, e)
  {
    match l.pc
    case RPop =>
      e := if op.got == [] then (if l.mode == Burst then EndRecv(l, [], WouldBlock) else Go(l.(pc := RLock)))
           else if v.sendCnt != 0 then Go(l.(pc := RAdmitLock, done := op.got)) else EndRecv(l, op.got, Ok);
      assert AfterPop(l, op, v, e, false);
    case RAdmitLock => e := Go(l.(pc := ALoad));
    case RLock => e := Pop(l.(pc := RPop1), 1);
    case RPop1 =>
      e := if op.got != [] then
             (if v.sendq == [] then EndRecv(l, op.got, Ok)
              else Push(l.(pc := RHelp(v.sendq[0]), done := op.got), false, v.first).(sq := Take))
           else if v.sendq != [] then
             EndRecv(l, v.first, Ok).(sq := WakeHead, res := Ok, got := v.first, direct := true)
           else if v.closed then EndRecv(l, [], Closed)
           else if l.mode == Try then EndRecv(l, [], WouldBlock)
           else Pop(l.(pc := RPop2), 1).(rq := Join, drecv := 1);
    case RHelp(s) =>
      e := if op.sent == [] then EndRecv(l, l.done, Ok).(sq := PutBack)
           else EndRecv(l, l.done, Ok).(sq := WakeHand, res := Ok, got := op.sent);
    case RPop2 =>
      e := if op.got == [] then Go(l.(pc := RParked)) else EndRecv(l, op.got, Ok).(rq := Quit, drecv := -1);
    case ALoad => e := Go(l.(pc := ATest(v.ph)));
    case ATest(head) =>
      e := if Room(false, 1, v.cap, head, v.ct) == 0 || v.sendq == [] then EndRecv(l, l.done, Ok)
           else Push(l.(pc := APush(v.sendq[0])), false, v.first).(sq := Take);
    case APush(s) =>
      e := if op.sent == [] then EndRecv(l, l.done, Ok).(sq := PutBack)
           else Go(l.(pc := ALoad)).(sq := WakeHand, res := Ok, got := op.sent);
  }

  lemma OtherMoves(t: Tid, l: Thread, op: Op<Item>, v: View) returns (e: Eff)
    requires Ready(l, op, v) && !Sends(l.pc) && !Receives(l.pc)
    ensures SleepProg(t, l, v, e) || CloseProg(l, op, v, e)
  {
    match l.pc
    case Rest => e := Go(l.(pc := KLock));
    case SParked => e := Go(l.(pc := if l.mode == Timed then SExpired else SWoken));
    case RParked => e := Go(l.(pc := if l.mode == Timed then RExpired else RWoken));
    case SExpired =>
      e := if t in v.sendq then Go(l.(pc := SWoken, res := Some(Timeout))).(sq := Quit) else Go(l.(pc := SWoken));
    case RExpired =>
      e := if t in v.recvq then Go(l.(pc := RWoken, res := Some(Timeout))).(rq := Quit) else Go(l.(pc := RWoken));
    case SWoken => e := EndSend(l, if l.res.value == Ok then 1 else 0, l.res.value).(dsend := -1);
    case RWoken => e := EndRecv(l, if l.res.value == Ok then l.done else [], l.res.value).(drecv := -1);
    case KLock => e := if v.closed then Go(l.(pc := Rest)) else Go(l.(pc := KSend)).(close := true);
    case KSend => e := if v.sendq == [] then Go(l.(pc := KRecv)) else Go(l).(sq := WakeHead, res := Closed);
    case KRecv =>
      e := if v.recvq == [] then Go(l.(pc := Rest)) else Pop(l.(pc := KPop(v.recvq[0])), 1).(rq := Take);
    case KPop(r) =>
      e := Go(l.(pc := KRecv)).(rq := WakeHand, res := if op.got == [] then Closed else Ok, got := op.got);
  }

  // ------------------------------------------------------------ one thread

  lemma ProgMoves(c: Chan, t: Tid)
    requires Base(c) && t in c.th && t in c.ring.ops && Ready(c.th[t], c.ring.ops[t], ViewOf(c, t))
    ensures CanMove(c, t)
  {
    hide Base, Ready, ViewOf, Apply, SendProg, RecvProg, SleepProg, CloseProg;
    var l, op, v := c.th[t], c.ring.ops[t], ViewOf(c, t);
    var e: Eff;
    if Sends(l.pc) { e := SendMoves(t, l, op, v); }
    else if Receives(l.pc) { e := RecvMoves(l, op, v); }
    else { e := OtherMoves(t, l, op, v); }
    assert Control(c, Apply(c, t, e), t, e);
    assert StepBy(c, Apply(c, t, e), t);
  }

  lemma RingMoves(c: Chan, t: Tid)
    requires Base(c) && t in c.th && !c.ring.ops[t].Returned() && !AwaitsTurn(c.ring.m, c.ring.ops[t])
    ensures CanMove(c, t)
  {
    hide OpStep, Control, OpOk, Covered, AllStored;
    HandAsleep(c, t);
    OnlyTurnWaits(c.ring, t);
    var m', op' :| OpStep(c.ring.m, c.ring.ops[t], m', op', t);
    var r := Ring(m', c.ring.ops[t := op']);
    StepKeepsInv(c.ring, r, t);
    HistGrows(c.ring, r, t);
    var to := ServedBy(c.th[t].pc, t);
    var c' := c.(ring := r, log := c.log.(
      acc := c.log.acc + m'.hist[|c.ring.m.hist|..],
      left := c.log.left + Leaves(c.ring.m.hist[c.ring.m.ch..m'.ch], to, c.th[to].rid)));
    assert RingStep(c, c', t);
    assert StepBy(c, c', t);
  }

  lemma HistGrows(s: Ring<Item>, s': Ring<Item>, t: Tid)
    requires Inv(s) && Step(s, s', t) && Inv(s')
    ensures |s.m.hist| <= |s'.m.hist| && s.m.ch <= s'.m.ch <= |s.m.hist|
  {
    assert OpOk(s.m, t, s.ops[t]);
  }

  /** A thread can move, unless it waits for the lock, for its turn in the ring, or for a peer. */
  lemma OnlyWaits(c: Chan, t: Tid)
    requires Base(c) && t in c.th
    ensures CanMove(c, t) <==> !Waits(c, t)
  {
    hide Base, StepBy;
    ThreadFits(c, t);
    if !Waits(c, t) {
      if c.ring.ops[t].Returned() { ProgMoves(c, t); } else { RingMoves(c, t); }
    } else if c' :| StepBy(c, c', t) {
      MovesNot(c, c', t);
    }
  }

  lemma ThreadFits(c: Chan, t: Tid)
    requires Base(c) && t in c.th
    ensures t in c.ring.ops && PlaceOk(c.th[t])
    ensures var l, op := c.th[t], c.ring.ops[t];
      && (l.pc.Pushing() ==> IsPush(op) || op.PRet?) && (l.pc.Popping() ==> op.CRet? || !(IsPush(op) || op.Returned()))
      && (!l.pc.Pushing() && !l.pc.Popping() ==> op.Idle?)
  {
    assert RequestOk(c.th[t], t) && OpFits(c.ring.ops[t], c.th[t], AuthorItems(c.th, t));
  }

  lemma MovesNot(c: Chan, c': Chan, t: Tid)
    requires Base(c) && StepBy(c, c', t)
    ensures t in c.th && t in c.ring.ops && !Waits(c, t)
  {
    hide Base, RingStep, Control, AwaitsTurn;
    if e :| Control(c, c', t, e) { ControlNot(c, c', t, e); } else { RingNot(c, c', t); }
  }

  lemma RingNot(c: Chan, c': Chan, t: Tid)
    requires Base(c) && RingStep(c, c', t)
    ensures t in c.th && t in c.ring.ops && !Waits(c, t)
  {
    hide Base;
    ThreadFits(c, t);
  }

  lemma ControlNot(c: Chan, c': Chan, t: Tid, e: Eff)
    requires Base(c) && Control(c, c', t, e)
    ensures t in c.th && t in c.ring.ops && !Waits(c, t)
  {
    hide Base, Post, Apply, ViewOf, Prog;
    assert c.ring.ops[t].Returned() by { ReturnedFirst(c, c', t, e); }
    assert ViewOf(c, t).free == (c.sh.lock == None) by { ViewFree(c, t); }
    ProgNot(t, c.th[t], c.ring.ops[t], ViewOf(c, t), e);
  }

  lemma ReturnedFirst(c: Chan, c': Chan, t: Tid, e: Eff)
    requires Base(c) && Control(c, c', t, e)
    ensures c.ring.ops[t].Returned()
  {
    hide Base, Control, Apply, ViewOf, Shape, Lawful, OwnLedger, WaiterLedger;
    ControlPost(c, c', t, e);
  }

  lemma ViewFree(c: Chan, t: Tid)
    ensures ViewOf(c, t).free == (c.sh.lock == None)
  {
  }

  lemma ProgNot(t: Tid, l: Thread, op: Op<Item>, v: View, e: Eff)
    requires Prog(t, l, op, v, e)
    ensures (AtLock(l.pc) ==> v.free) && !Parked(l)
  {
    hide Go, Push, Pop, EndSend, EndRecv, ExitDeliver, MakeItems, Room;
  }

  // ------------------------------------------------------------- everybody

  /** The thread whose turn it is in the ring. */
  lemma TurnMoves(c: Chan, t: Tid)
    requires Base(c) && t in c.th && t in c.ring.ops && AwaitsTurn(c.ring.m, c.ring.ops[t])
    ensures exists u :: u in c.th && c.th[u].pc != Rest && CanMove(c, u)
  {
    hide CanMove, Inv, AwaitsTurn, LockOk, QueueOk, OpFits, RequestOk, OpenOk;
    var u := TurnOf(c.ring, t);
    ThreadFits(c, u);
    OnlyWaits(c, u);
  }

  lemma TurnOf(s: Ring<Item>, t: Tid) returns (u: Tid)
    requires Inv(s) && t in s.ops && AwaitsTurn(s.m, s.ops[t])
    ensures u in s.ops && !s.ops[u].Returned() && !AwaitsTurn(s.m, s.ops[u])
  {
    InvOp(s, t);
    TurnExists(s);
    hide Inv;
    if s.ops[t].PWrite? {
      u :| u in s.ops && s.ops[u].PWrite? && s.ops[u].lo == s.m.pt;
    } else {
      u :| u in s.ops && s.ops[u].CRead? && s.ops[u].lo == s.m.ct;
    }
  }

  /** No deadlock: while anybody is inside a request and not parked, somebody inside a request can move. */
  lemma SomebodyMoves(run: seq<Chan>, i: nat, t: Tid)
    requires Channel.Run(run) && i < |run| && t in run[i].th && run[i].th[t].pc != Rest && !Parked(run[i].th[t])
    ensures exists u :: u in run[i].th && run[i].th[u].pc != Rest && CanMove(run[i], u)
  {
    hide Channel.Run, Base, CanMove, AwaitsTurn;
    RunBase(run, i);
    var c := run[i];
    ThreadFits(c, t);
    var u := if AtLock(c.th[t].pc) && c.sh.lock.Some? then c.sh.lock.value else t;
    HolderFits(c, u);
    ThreadFits(c, u);
    OnlyWaits(c, u);
    if AwaitsTurn(c.ring.m, c.ring.ops[u]) { TurnMoves(c, u); }
  }

  lemma HolderFits(c: Chan, u: Tid)
    requires Base(c)
    ensures c.sh.lock == Some(u) ==> u in c.th && c.th[u].pc.Locked()
  {
  }
}
