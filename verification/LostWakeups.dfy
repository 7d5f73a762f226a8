/** Where the no-lost-wakeup guarantees end.  The guarantee for a parked
    receiver needs a channel with one receiver, and that for a parked sender a
    channel with one sender: without that contract there are executions that
    leave a thread parked for good beside a ring it could use. */
module LostWakeups {
  import opened Results
  import opened Seqs
  import opened Ring
  import opened Channel
  import opened ChannelBase
  import opened ChannelInv
  import opened ChannelClose
  import R = ReceiverWakeup
  import S = SenderWakeup

  ghost predicate Reaches(run: seq<Chan>, c: Chan) { Channel.Run(run) && Last(run) == c }

  lemma Extend(run: seq<Chan>, c: Chan, c': Chan, t: Tid) returns (run': seq<Chan>)
    requires Reaches(run, c) && StepBy(c, c', t)
    ensures Reaches(run', c')
  {
    hide Init, StepBy;
    run' := run + [c'];
    forall i | 0 <= i < |run'| - 1 ensures Channel.Next(run'[i], run'[i + 1]) {
      if i < |run| - 1 { assert Channel.Next(run[i], run[i + 1]); } else { assert StepBy(run'[i], run'[i + 1], t); }
    }
  }

  /** What one thread works on: its own state and ring operation, and everything shared. */
  datatype Desk = Desk(l: Thread, op: Op<Item>, m: Mem<Item>, sh: Shared, log: Log)

  /** Channel c with thread t at desk d. */
  function At(c: Chan, t: Tid, d: Desk): Chan {
    Chan(c.prod, c.cons, Ring(d.m, c.ring.ops[t := d.op]), d.sh, c.th[t := d.l], d.log)
  }

  function DeskOf(c: Chan, t: Tid): Desk
    requires t in c.th && t in c.ring.ops
  {
    Desk(c.th[t], c.ring.ops[t], c.ring.m, c.sh, c.log)
  }

  lemma SitDown(c: Chan, t: Tid)
    requires t in c.th && t in c.ring.ops
    ensures At(c, t, DeskOf(c, t)) == c
  {
    assert c.th[t := c.th[t]] == c.th && c.ring.ops[t := c.ring.ops[t]] == c.ring.ops;
  }

  // ------------------------------------------------------------------ steps

  function SharedAfter(d: Desk, t: Tid, e: Eff): Shared {
    Shared(LockAfter(d.sh.lock, d.l.pc, e.l.pc, t), d.sh.sendCnt + e.dsend, d.sh.recvCnt + e.drecv,
           QApply(e.sq, d.sh.sendq, t, SendHand(d.l.pc)), QApply(e.rq, d.sh.recvq, t, RecvHand(d.l.pc)),
           d.sh.closed || e.close)
  }

  /** A control step that serves nobody. */
  lemma Act(run: seq<Chan>, c: Chan, t: Tid, d: Desk, e: Eff) returns (run': seq<Chan>, d': Desk)
    requires Reaches(run, At(c, t, d)) && Prog(t, d.l, d.op, ViewOf(At(c, t, d), t), e)
    requires !e.sq.WakeHand? && !e.sq.WakeHead? && !e.rq.WakeHand? && !e.rq.WakeHead?
    ensures Reaches(run', At(c, t, d')) && d' == Desk(e.l, e.op, d.m, SharedAfter(d, t, e), d'.log)
  {
    hide Prog, ViewOf, Reaches, QApply, Record;
    var c0 := At(c, t, d);
    d' := Desk(e.l, e.op, d.m, SharedAfter(d, t, e), Record(d.log, t, d.l, e));
    assert Apply(c0, t, e) == At(c, t, d');
    assert Control(c0, At(c, t, d'), t, e);
    run' := Extend(run, c0, At(c, t, d'), t);
  }

  function WithServed(c: Chan, u: Tid, got: seq<Item>): Chan
    requires u in c.th
  {
    c.(th := c.th[u := c.th[u].(res := Some(Ok), done := got)])
  }

  /** A control step that serves the waiter u in hand. */
  lemma Serve(run: seq<Chan>, c: Chan, t: Tid, d: Desk, e: Eff, u: Tid) returns (run': seq<Chan>, d': Desk)
    requires Reaches(run, At(c, t, d)) && Prog(t, d.l, d.op, ViewOf(At(c, t, d), t), e) && u in c.th && u != t
    requires (e.sq.WakeHand? && e.rq.Keep? && SendHand(d.l.pc) == Some(u))
          || (e.rq.WakeHand? && e.sq.Keep? && RecvHand(d.l.pc) == Some(u))
    requires e.res == Ok
    ensures Reaches(run', At(WithServed(c, u, e.got), t, d'))
    ensures d' == Desk(e.l, e.op, d.m, SharedAfter(d, t, e), d'.log)
  {
    hide Prog, ViewOf, Reaches, QApply, Record;
    var c0 := At(c, t, d);
    d' := Desk(e.l, e.op, d.m, SharedAfter(d, t, e), Record(d.log, t, d.l, e));
    var c1 := At(WithServed(c, u, e.got), t, d');
    assert c0.th[u := c0.th[u].(res := Some(Ok), done := e.got)][t := e.l] == c1.th;
    assert Apply(c0, t, e) == c1;
    assert Control(c0, c1, t, e);
    run' := Extend(run, c0, c1, t);
  }

  /** A step of the ring operation under way. */
  lemma Turn(run: seq<Chan>, c: Chan, t: Tid, d: Desk, m: Mem<Item>, op: Op<Item>) returns (run': seq<Chan>, d': Desk)
    requires Reaches(run, At(c, t, d)) && (ServedBy(d.l.pc, t) == t || ServedBy(d.l.pc, t) in c.th)
    requires OpStep(d.m, d.op, m, op, t) && |d.m.hist| <= |m.hist| && d.m.ch <= m.ch <= |d.m.hist|
    ensures Reaches(run', At(c, t, d')) && d' == d.(m := m, op := op, log := d'.log)
  {
    hide OpStep, Reaches;
    var c0 := At(c, t, d);
    var to := ServedBy(d.l.pc, t);
    d' := d.(m := m, op := op, log := d.log.(
      acc := d.log.acc + m.hist[|d.m.hist|..],
      left := d.log.left + Leaves(d.m.hist[d.m.ch..m.ch], to, c0.th[to].rid)));
    var c1 := At(c, t, d');
    assert c1.ring.ops == c0.ring.ops[t := op] && Step(c0.ring, c1.ring, t);
    assert RingStep(c0, c1, t);
    run' := Extend(run, c0, c1, t);
  }

  lemma DeskCursors(run: seq<Chan>, c: Chan, t: Tid, d: Desk)
    requires Reaches(run, At(c, t, d))
    ensures Cursors(d.m)
  {
    hide Channel.Run, OpFits, RequestOk;
    assert |run| > 0 by { NotEmpty(run); }
    RunBase(run, |run| - 1);
  }

  lemma NotEmpty(run: seq<Chan>)
    requires Channel.Run(run)
    ensures |run| > 0
  {
  }

  // ------------------------------------------------------- ring operations

  ghost predicate InRing(run: seq<Chan>, c: Chan, t: Tid, d: Desk) {
    Reaches(run, At(c, t, d)) && (ServedBy(d.l.pc, t) == t || ServedBy(d.l.pc, t) in c.th)
  }

  /** A pop on a ring with nothing to take. */
  lemma PopEmpty(run: seq<Chan>, c: Chan, t: Tid, d: Desk) returns (run': seq<Chan>, d': Desk)
    requires InRing(run, c, t, d) && d.op == CLoadHead(1) && d.m.pt == d.m.ch
    ensures Reaches(run', At(c, t, d')) && d' == d.(op := CRet(d.m.ch, []), log := d'.log)
  {
    hide Reaches, At;
    DeskCursors(run, c, t, d);
    run', d' := Turn(run, c, t, d, d.m, CLoadTail(1, d.m.ch));
    run', d' := Turn(run', c, t, d', d.m, CRet(d.m.ch, []));
  }

  /** A push on a full ring. */
  lemma PushFull(run: seq<Chan>, c: Chan, t: Tid, d: Desk, x: Item) returns (run': seq<Chan>, d': Desk)
    requires InRing(run, c, t, d) && d.op == PLoadHead(false, [x]) && d.m.ph == d.m.ct + d.m.cap
    ensures Reaches(run', At(c, t, d')) && d' == d.(op := PRet(d.m.ph, []), log := d'.log)
  {
    hide Reaches, At;
    DeskCursors(run, c, t, d);
    run', d' := Turn(run, c, t, d, d.m, PLoadTail(false, [x], d.m.ph));
    run', d' := Turn(run', c, t, d', d.m, PRet(d.m.ph, []));
  }

  /** A push of one value reserves the next index. */
  lemma PushReserve(run: seq<Chan>, c: Chan, t: Tid, d: Desk, x: Item) returns (run': seq<Chan>, d': Desk)
    requires InRing(run, c, t, d) && d.op == PLoadHead(false, [x]) && d.m.ph < d.m.ct + d.m.cap
    ensures Reaches(run', At(c, t, d'))
    ensures d' == d.(m := ReserveP(d.m, t, [x]), op := PWrite(d.m.ph, [x], 0), log := d'.log)
  {
    hide Reaches, At;
    DeskCursors(run, c, t, d);
    run', d' := Turn(run, c, t, d, d.m, PLoadTail(false, [x], d.m.ph));
    run', d' := Turn(run', c, t, d', d.m, PCas(false, [x], d.m.ph, 1));
    assert [x][..1] == [x];
    run', d' := Turn(run', c, t, d', ReserveP(d.m, t, [x]), PWrite(d.m.ph, [x], 0));
  }

  /** ... and, in its turn, writes and commits it. */
  lemma PushFinish(run: seq<Chan>, c: Chan, t: Tid, d: Desk, x: Item) returns (run': seq<Chan>, d': Desk)
    requires InRing(run, c, t, d) && d.op == PWrite(d.m.pt, [x], 0)
    ensures Reaches(run', At(c, t, d'))
    ensures d' == d.(m := d.m.(pt := d.m.pt + 1, slots := d'.m.slots), op := PRet(d.m.pt, [x]), log := d'.log)
  {
    hide Reaches, At;
    DeskCursors(run, c, t, d);
    var m := d.m.(slots := d.m.slots[(d.m.pt + 0) % d.m.cap := x]);
    run', d' := Turn(run, c, t, d, m, PWrite(m.pt, [x], 1));
    run', d' := Turn(run', c, t, d', m.(pt := m.pt + 1), PRet(m.pt, [x]));
  }

  /** A pop of one value reserves the next index. */
  lemma PopReserve(run: seq<Chan>, c: Chan, t: Tid, d: Desk) returns (run': seq<Chan>, d': Desk)
    requires InRing(run, c, t, d) && d.op == CLoadHead(1) && d.m.ch < d.m.pt
    ensures Reaches(run', At(c, t, d'))
    ensures d' == d.(m := ReserveC(d.m, t, 1), op := CRead(d.m.ch, 1, []), log := d'.log)
  {
    hide Reaches, At;
    DeskCursors(run, c, t, d);
    run', d' := Turn(run, c, t, d, d.m, CLoadTail(1, d.m.ch));
    run', d' := Turn(run', c, t, d', d.m, CCas(1, d.m.ch, 1));
    run', d' := Turn(run', c, t, d', ReserveC(d.m, t, 1), CRead(d.m.ch, 1, []));
  }

  /** ... and, in its turn, reads and releases it. */
  lemma PopFinish(run: seq<Chan>, c: Chan, t: Tid, d: Desk) returns (run': seq<Chan>, d': Desk, x: Item)
    requires InRing(run, c, t, d) && d.op == CRead(d.m.ct, 1, [])
    ensures Reaches(run', At(c, t, d'))
    ensures d' == d.(m := d.m.(ct := d.m.ct + 1), op := CRet(d.m.ct, [x]), log := d'.log)
  {
    hide Reaches, At;
    DeskCursors(run, c, t, d);
    x := d.m.slots[(d.m.ct + 0) % d.m.cap];
    assert [] + [x] == [x];
    run', d' := Turn(run, c, t, d, d.m, CRead(d.m.ct, 1, [x]));
    run', d' := Turn(run', c, t, d', d.m.(ct := d.m.ct + 1), CRet(d.m.ct, [x]));
  }

  // ----------------------------------------------------- whole operations

  ghost predicate Idle(run: seq<Chan>, c: Chan, t: Tid, d: Desk) {
    && Reaches(run, At(c, t, d)) && d.l.pc == Rest && d.op.Returned() && !d.sh.closed
  }

  /** What thread t sees from its desk. */
  lemma Sees(c: Chan, t: Tid, d: Desk) returns (v: View)
    ensures v == ViewOf(At(c, t, d), t) && v.free == (d.sh.lock == None) && v.closed == d.sh.closed
    ensures v.sendCnt == d.sh.sendCnt && v.recvCnt == d.sh.recvCnt && v.sendq == d.sh.sendq && v.recvq == d.sh.recvq
    ensures v.cap == d.m.cap && v.ph == d.m.ph && v.pt == d.m.pt && v.ch == d.m.ch && v.ct == d.m.ct
    ensures v.maySend == (c.prod == None || c.prod == Some(t)) && v.mayRecv == (c.cons == None || c.cons == Some(t))
    ensures d.sh.sendq != [] && d.sh.sendq[0] in c.th && d.sh.sendq[0] != t ==> v.first == c.th[d.sh.sendq[0]].items
  {
    v := ViewOf(At(c, t, d), t);
  }

  lemma Sending(run: seq<Chan>, c: Chan, t: Tid, d: Desk, v: View, e: Eff) returns (run': seq<Chan>, d': Desk)
    requires Reaches(run, At(c, t, d)) && v == ViewOf(At(c, t, d), t) && SendProg(t, d.l, d.op, v, e)
    requires !e.sq.WakeHand? && !e.sq.WakeHead? && !e.rq.WakeHand? && !e.rq.WakeHead?
    ensures Reaches(run', At(c, t, d')) && d' == Desk(e.l, e.op, d.m, SharedAfter(d, t, e), d'.log)
  {
    hide SendProg, At, Reaches;
    run', d' := Act(run, c, t, d, e);
  }

  lemma Receiving(run: seq<Chan>, c: Chan, t: Tid, d: Desk, v: View, e: Eff) returns (run': seq<Chan>, d': Desk)
    requires Reaches(run, At(c, t, d)) && v == ViewOf(At(c, t, d), t) && RecvProg(d.l, d.op, v, e)
    requires !e.sq.WakeHand? && !e.sq.WakeHead? && !e.rq.WakeHand? && !e.rq.WakeHead?
    ensures Reaches(run', At(c, t, d')) && d' == Desk(e.l, e.op, d.m, SharedAfter(d, t, e), d'.log)
  {
    hide RecvProg, At, Reaches;
    run', d' := Act(run, c, t, d, e);
  }

  /** A receive takes the lock. */
  lemma LocksToReceive(run: seq<Chan>, c: Chan, t: Tid, d: Desk) returns (run': seq<Chan>, d': Desk)
    requires Idle(run, c, t, d) && d.sh.lock == None && (c.cons == None || c.cons == Some(t))
    ensures Reaches(run', At(c, t, d'))
    ensures d' == Desk(d.l.(pc := RPop1, mode := Forever, want := 1), CLoadHead(1), d.m, d.sh.(lock := Some(t)), d'.log)
  {
    hide Reaches, At, ViewOf, AfterPop, AfterPop1, AfterPop2, AfterHelp, LockAdmit, AdmitLoad, AdmitTest, AdmitPush;
    var l := d.l.(pc := RLock, mode := Forever, want := 1);
    var v := Sees(c, t, d);
    assert BeginRecv(d.l, v, Go(l), 1, Forever, false);
    run', d' := Receiving(run, c, t, d, v, Go(l));
    v := Sees(c, t, d');
    run', d' := Receiving(run', c, t, d', v, Pop(l.(pc := RPop1), 1));
  }

  lemma RegistersReceiver(run: seq<Chan>, c: Chan, t: Tid, d: Desk) returns (run': seq<Chan>, d': Desk)
    requires Reaches(run, At(c, t, d)) && d.l.pc == RPop1 && d.l.mode == Forever && d.op == CRet(d.m.ch, [])
    requires !d.sh.closed && d.sh.sendq == [] && d.sh.lock == Some(t)
    ensures Reaches(run', At(c, t, d')) && d'.l == d.l.(pc := RPop2) && d'.op == CLoadHead(1) && d'.m == d.m
    ensures d'.sh == d.sh.(recvq := d.sh.recvq + [t], recvCnt := d.sh.recvCnt + 1)
  {
    hide Reaches, At, ViewOf, BeginRecv, AfterPop, AfterPop2, AfterHelp, LockAdmit, AdmitLoad, AdmitTest, AdmitPush;
    var v := Sees(c, t, d);
    run', d' := Receiving(run, c, t, d, v, Pop(d.l.(pc := RPop2), 1).(rq := Join, drecv := 1));
  }

  /** A receive that finds the ring empty and no sender queued, and parks. */
  lemma ParkReceiver(run: seq<Chan>, c: Chan, t: Tid, d: Desk) returns (run': seq<Chan>, d': Desk)
    requires Idle(run, c, t, d) && d.sh.lock == None && d.sh.sendq == [] && d.m.pt == d.m.ch
    requires c.cons == None || c.cons == Some(t)
    ensures Reaches(run', At(c, t, d')) && d'.l.pc == RParked && d'.l.mode == Forever
    ensures d'.op == Op.Idle && d'.m == d.m
    ensures d'.sh == d.sh.(recvq := d.sh.recvq + [t], recvCnt := d.sh.recvCnt + 1)
  {
    hide Reaches, At;
    run', d' := LocksToReceive(run, c, t, d);
    run', d' := PopEmpty(run', c, t, d');
    run', d' := RegistersReceiver(run', c, t, d');
    run', d' := PopEmpty(run', c, t, d');
    run', d' := Sleeps(run', c, t, d');
  }

  lemma Sleeps(run: seq<Chan>, c: Chan, t: Tid, d: Desk) returns (run': seq<Chan>, d': Desk)
    requires Reaches(run, At(c, t, d)) && d.l.pc == RPop2 && d.op == CRet(d.m.ch, []) && d.sh.lock == Some(t)
    ensures Reaches(run', At(c, t, d')) && d'.l == d.l.(pc := RParked) && d'.op == Op.Idle
    ensures d'.m == d.m && d'.sh == d.sh.(lock := None)
  {
    hide Reaches, At, ViewOf, BeginRecv, AfterPop, LockRecv, AfterPop1, AfterHelp, LockAdmit, AdmitLoad, AdmitTest,
         AdmitPush;
    var v := Sees(c, t, d);
    run', d' := Receiving(run, c, t, d, v, Go(d.l.(pc := RParked)));
  }

  lemma BeginsSend(run: seq<Chan>, c: Chan, t: Tid, d: Desk, b: Bytes) returns (run': seq<Chan>, d': Desk, x: Item)
    requires Idle(run, c, t, d) && (c.prod == None || c.prod == Some(t))
    ensures Reaches(run', At(c, t, d')) && d'.op == Op.Idle && d'.m == d.m && d'.sh == d.sh
    ensures d'.l == d.l.(pc := SGate, mode := Forever, items := [x], late := false)
  {
    hide Reaches, At, ViewOf, GateSend, AfterPush, LockDeliver, LockSend, AfterPush1, AfterPush2, DeliverLoad,
         DeliverTest, DeliverPop;
    x := Item(t, d.l.serial, b);
    assert MakeItems(t, d.l.serial, [b]) == [x];
    var v := Sees(c, t, d);
    var e := Go(d.l.(pc := SGate, mode := Forever, items := [x], late := false));
    assert BeginSend(t, d.l, v, e, [b], Forever);
    run', d' := Sending(run, c, t, d, v, e);
  }

  lemma GatedToLock(run: seq<Chan>, c: Chan, t: Tid, d: Desk) returns (run': seq<Chan>, d': Desk)
    requires Reaches(run, At(c, t, d)) && d.l.pc == SGate && d.l.mode == Forever && d.op == Op.Idle && !d.sh.closed
    ensures Reaches(run', At(c, t, d')) && d'.op == Op.Idle && d'.m == d.m && d'.sh == d.sh
    ensures d'.l == d.l.(pc := SLock)
  {
    hide Reaches, At, ViewOf, BeginSend, AfterPush, LockDeliver, LockSend, AfterPush1, AfterPush2, DeliverLoad,
         DeliverTest, DeliverPop;
    var v := Sees(c, t, d);
    assert GateSend(d.l, v, Go(d.l.(pc := SLock)), false);
    run', d' := Sending(run, c, t, d, v, Go(d.l.(pc := SLock)));
  }

  /** A send of one value takes the lock. */
  lemma LocksToSend(run: seq<Chan>, c: Chan, t: Tid, d: Desk, b: Bytes) returns (run': seq<Chan>, d': Desk, x: Item)
    requires Idle(run, c, t, d) && d.sh.lock == None && (c.prod == None || c.prod == Some(t))
    ensures Reaches(run', At(c, t, d')) && d'.l.pc == SPush1 && d'.l.mode == Forever && d'.l.items == [x]
    ensures d'.op == PLoadHead(false, [x]) && d'.m == d.m && d'.sh == d.sh.(lock := Some(t))
  {
    hide Reaches, At, ViewOf, BeginSend, GateSend, AfterPush, LockDeliver, AfterPush1, AfterPush2, DeliverLoad,
         DeliverTest, DeliverPop;
    run', d', x := BeginsSend(run, c, t, d, b);
    run', d' := GatedToLock(run', c, t, d');
    var v := Sees(c, t, d');
    run', d' := Sending(run', c, t, d', v, Push(d'.l.(pc := SPush1), false, [x]));
  }

  /** The delivering loop loads prod.tail. */
  lemma LoadsTail(run: seq<Chan>, c: Chan, t: Tid, d: Desk) returns (run': seq<Chan>, d': Desk)
    requires Reaches(run, At(c, t, d)) && d.l.pc.DLoad? && d.op == Op.Idle && d.sh.lock == Some(t)
    ensures Reaches(run', At(c, t, d')) && d'.l == d.l.(pc := DTest(d.l.pc.k, d.m.pt))
    ensures d'.op == Op.Idle && d'.m == d.m && d'.sh == d.sh
  {
    hide Reaches, At, ViewOf, BeginSend, GateSend, AfterPush, LockDeliver, LockSend, AfterPush1, AfterPush2,
         DeliverTest, DeliverPop;
    var v := Sees(c, t, d);
    run', d' := Sending(run, c, t, d, v, Go(d.l.(pc := DTest(d.l.pc.k, d.m.pt))));
  }

  /** The admitting loop loads prod.head. */
  lemma LoadsHead(run: seq<Chan>, c: Chan, t: Tid, d: Desk) returns (run': seq<Chan>, d': Desk)
    requires Reaches(run, At(c, t, d)) && d.l.pc == ALoad && d.op == Op.Idle && d.sh.lock == Some(t)
    ensures Reaches(run', At(c, t, d')) && d'.l == d.l.(pc := ATest(d.m.ph))
    ensures d'.op == Op.Idle && d'.m == d.m && d'.sh == d.sh
  {
    hide Reaches, At, ViewOf, BeginRecv, AfterPop, LockRecv, AfterPop1, AfterPop2, AfterHelp, LockAdmit, AdmitTest,
         AdmitPush;
    var v := Sees(c, t, d);
    run', d' := Receiving(run, c, t, d, v, Go(d.l.(pc := ATest(d.m.ph))));
  }

  /** Refused, it looks at the ring for parked receivers. */
  lemma LooksForReceivers(run: seq<Chan>, c: Chan, t: Tid, d: Desk) returns (run': seq<Chan>, d': Desk)
    requires Reaches(run, At(c, t, d)) && d.l.pc == SPush1 && d.op == PRet(d.m.ph, []) && d.sh.lock == Some(t)
    ensures Reaches(run', At(c, t, d')) && d'.l == d.l.(pc := DTest(ThenPark, d.m.pt), done := [])
    ensures d'.op == Op.Idle && d'.m == d.m && d'.sh == d.sh
  {
    hide Reaches, At, ViewOf, BeginSend, GateSend, AfterPush, LockDeliver, LockSend, AfterPush2, DeliverLoad,
         DeliverTest, DeliverPop;
    var l := d.l.(done := []);
    var v := Sees(c, t, d);
    run', d' := Sending(run, c, t, d, v, Go(l.(pc := DLoad(ThenPark))));
    run', d' := LoadsTail(run', c, t, d');
  }

  /** It finds nothing to deliver and registers. */
  lemma RegistersSender(run: seq<Chan>, c: Chan, t: Tid, d: Desk, x: Item) returns (run': seq<Chan>, d': Desk)
    requires Reaches(run, At(c, t, d)) && d.l.pc == DTest(ThenPark, d.m.ch) && d.l.mode == Forever && d.l.items == [x]
    requires d.op == Op.Idle && d.sh.lock == Some(t)
    ensures Reaches(run', At(c, t, d')) && d'.l == d.l.(pc := SPush2) && d'.op == PLoadHead(false, [x]) && d'.m == d.m
    ensures d'.sh == d.sh.(sendq := d.sh.sendq + [t], sendCnt := d.sh.sendCnt + 1)
  {
    hide Reaches, At, ViewOf, BeginSend, GateSend, AfterPush, LockDeliver, LockSend, AfterPush1, AfterPush2,
         DeliverLoad, DeliverPop;
    var v := Sees(c, t, d);
    run', d' := Sending(run, c, t, d, v, Push(d.l.(pc := SPush2), false, [x]).(sq := Join, dsend := 1));
  }

  lemma SleepsSender(run: seq<Chan>, c: Chan, t: Tid, d: Desk) returns (run': seq<Chan>, d': Desk)
    requires Reaches(run, At(c, t, d)) && d.l.pc == SPush2 && d.op == PRet(d.m.ph, []) && d.sh.lock == Some(t)
    ensures Reaches(run', At(c, t, d')) && d'.l == d.l.(pc := SParked) && d'.op == Op.Idle
    ensures d'.m == d.m && d'.sh == d.sh.(lock := None)
  {
    hide Reaches, At, ViewOf, BeginSend, GateSend, AfterPush, LockDeliver, LockSend, AfterPush1, DeliverLoad,
         DeliverTest, DeliverPop;
    var v := Sees(c, t, d);
    run', d' := Sending(run, c, t, d, v, Go(d.l.(pc := SParked)));
  }

  /** A send that finds the ring full by reservations and empty by commits, and parks. */
  lemma ParkSender(run: seq<Chan>, c: Chan, t: Tid, d: Desk, b: Bytes) returns (run': seq<Chan>, d': Desk, x: Item)
    requires Idle(run, c, t, d) && d.sh.lock == None && d.m.ph == d.m.ct + d.m.cap && d.m.pt == d.m.ch
    requires c.prod == None || c.prod == Some(t)
    ensures Reaches(run', At(c, t, d')) && d'.l.pc == SParked && d'.l.mode == Forever && d'.l.items == [x]
    ensures d'.op == Op.Idle && d'.m == d.m
    ensures d'.sh == d.sh.(sendq := d.sh.sendq + [t], sendCnt := d.sh.sendCnt + 1)
  {
    hide Reaches, At;
    run', d', x := LocksToSend(run, c, t, d, b);
    run', d' := PushFull(run', c, t, d', x);
    run', d' := LooksForReceivers(run', c, t, d');
    run', d' := RegistersSender(run', c, t, d', x);
    run', d' := PushFull(run', c, t, d', x);
    run', d' := SleepsSender(run', c, t, d');
  }

  /** A lock-free send reserves its index. */
  lemma FastPush(run: seq<Chan>, c: Chan, t: Tid, d: Desk, b: Bytes) returns (run': seq<Chan>, d': Desk, x: Item)
    requires Idle(run, c, t, d) && d.m.ph < d.m.ct + d.m.cap && (c.prod == None || c.prod == Some(t))
    ensures Reaches(run', At(c, t, d')) && d'.l.pc == SPush && d'.l.mode == Forever && d'.l.items == [x]
    ensures d'.op == PWrite(d.m.ph, [x], 0) && d'.m == ReserveP(d.m, t, [x]) && d'.sh == d.sh
  {
    hide Reaches, At, ViewOf, BeginSend, AfterPush, LockDeliver, LockSend, AfterPush1, AfterPush2, DeliverLoad,
         DeliverTest, DeliverPop;
    run', d', x := BeginsSend(run, c, t, d, b);
    var l := d'.l;
    var v := Sees(c, t, d');
    assert GateSend(d'.l, v, Push(l.(pc := SPush), false, [x]), true);
    run', d' := Sending(run', c, t, d', v, Push(l.(pc := SPush), false, [x]));
    run', d' := PushReserve(run', c, t, d', x);
  }

  /** It commits, sees a registered receiver and takes the lock to deliver. */
  lemma CommitAndLook(run: seq<Chan>, c: Chan, t: Tid, d: Desk, x: Item) returns (run': seq<Chan>, d': Desk)
    requires Reaches(run, At(c, t, d)) && d.l.pc == SPush && d.op == PWrite(d.m.pt, [x], 0) && d.sh.recvCnt != 0
    ensures Reaches(run', At(c, t, d')) && d'.l.pc == SDeliverLock && d'.op == Op.Idle
    ensures d'.m == d.m.(pt := d.m.pt + 1, slots := d'.m.slots) && d'.sh == d.sh
  {
    hide Reaches, At, ViewOf, BeginSend, GateSend, LockDeliver, LockSend, AfterPush1, AfterPush2, DeliverLoad,
         DeliverTest, DeliverPop;
    run', d' := PushFinish(run, c, t, d, x);
    var v := Sees(c, t, d');
    var e := Go(d'.l.(pc := SDeliverLock, done := [x]));
    assert AfterPush(d'.l, d'.op, v, e, false);
    run', d' := Sending(run', c, t, d', v, e);
  }

  /** One round of the delivering loop that finds the ring empty and returns. */
  lemma NothingToDeliver(run: seq<Chan>, c: Chan, t: Tid, d: Desk) returns (run': seq<Chan>, d': Desk)
    requires Reaches(run, At(c, t, d)) && d.l.pc == DLoad(Finish) && d.op == Op.Idle && d.m.pt == d.m.ch
    requires d.sh.lock == Some(t)
    ensures Reaches(run', At(c, t, d')) && d'.l.pc == Rest && d'.op == Op.Idle
    ensures d'.m == d.m && d'.sh == d.sh.(lock := None)
  {
    hide Reaches, At, ViewOf, BeginSend, GateSend, AfterPush, LockDeliver, LockSend, AfterPush1, AfterPush2,
         DeliverLoad, DeliverPop;
    run', d' := LoadsTail(run, c, t, d);
    var v := Sees(c, t, d');
    run', d' := Sending(run', c, t, d', v, EndSend(d'.l, |d'.l.done|, Ok));
  }

  lemma LocksToDeliver(run: seq<Chan>, c: Chan, t: Tid, d: Desk) returns (run': seq<Chan>, d': Desk)
    requires Reaches(run, At(c, t, d)) && d.l.pc == SDeliverLock && d.op == Op.Idle && d.sh.lock == None
    ensures Reaches(run', At(c, t, d')) && d'.l.pc == DLoad(Finish) && d'.op == Op.Idle
    ensures d'.m == d.m && d'.sh == d.sh.(lock := Some(t))
  {
    hide Reaches, At, ViewOf, BeginSend, GateSend, AfterPush, LockSend, AfterPush1, AfterPush2, DeliverLoad,
         DeliverTest, DeliverPop;
    var v := Sees(c, t, d);
    run', d' := Sending(run, c, t, d, v, Go(d.l.(pc := DLoad(Finish))));
  }

  /** One round that takes the first receiver r out of the queue. */
  lemma TakesReceiver(run: seq<Chan>, c: Chan, t: Tid, d: Desk, r: Tid) returns (run': seq<Chan>, d': Desk)
    requires Reaches(run, At(c, t, d)) && d.l.pc == DLoad(Finish) && d.op == Op.Idle && d.m.pt != d.m.ch
    requires d.sh.lock == Some(t) && d.sh.recvq == [r]
    ensures Reaches(run', At(c, t, d')) && d'.l.pc == DPop(Finish, r) && d'.op == CLoadHead(1)
    ensures d'.m == d.m && d'.sh == d.sh.(recvq := [])
  {
    hide Reaches, At, ViewOf, BeginSend, GateSend, AfterPush, LockDeliver, LockSend, AfterPush1, AfterPush2,
         DeliverLoad, DeliverPop;
    run', d' := LoadsTail(run, c, t, d);
    var v := Sees(c, t, d');
    run', d' := Sending(run', c, t, d', v, Pop(d'.l.(pc := DPop(Finish, r)), 1).(rq := Take));
  }

  /** A lock-free receive reserves its index. */
  lemma FastPop(run: seq<Chan>, c: Chan, t: Tid, d: Desk) returns (run': seq<Chan>, d': Desk)
    requires Idle(run, c, t, d) && d.m.ch < d.m.pt && (c.cons == None || c.cons == Some(t))
    ensures Reaches(run', At(c, t, d')) && d'.l.pc == RPop
    ensures d'.op == CRead(d.m.ch, 1, []) && d'.m == ReserveC(d.m, t, 1) && d'.sh == d.sh
  {
    hide Reaches, At, ViewOf, AfterPop, LockRecv, AfterPop1, AfterPop2, AfterHelp, LockAdmit, AdmitLoad, AdmitTest,
         AdmitPush;
    var v := Sees(c, t, d);
    var e := Pop(d.l.(pc := RPop, mode := Forever, want := 1), 1);
    assert BeginRecv(d.l, v, e, 1, Forever, true);
    run', d' := Receiving(run, c, t, d, v, e);
    run', d' := PopReserve(run', c, t, d');
  }

  /** It releases its index, sees a registered sender and takes the lock to admit. */
  lemma ReleaseAndLook(run: seq<Chan>, c: Chan, t: Tid, d: Desk) returns (run': seq<Chan>, d': Desk)
    requires Reaches(run, At(c, t, d)) && d.l.pc == RPop && d.op == CRead(d.m.ct, 1, [])
    requires d.sh.sendCnt != 0 && d.sh.lock == None
    ensures Reaches(run', At(c, t, d')) && d'.l.pc == ALoad && d'.op == Op.Idle
    ensures d'.m == d.m.(ct := d.m.ct + 1) && d'.sh == d.sh.(lock := Some(t))
  {
    hide Reaches, At, ViewOf, BeginRecv, LockRecv, AfterPop1, AfterPop2, AfterHelp, LockAdmit, AdmitLoad, AdmitTest,
         AdmitPush;
    var x;
    run', d', x := PopFinish(run, c, t, d);
    var v := Sees(c, t, d');
    var e := Go(d'.l.(pc := RAdmitLock, done := [x]));
    assert AfterPop(d'.l, d'.op, v, e, false);
    run', d' := Receiving(run', c, t, d', v, e);
    run', d' := LocksToAdmit(run', c, t, d');
  }

  lemma LocksToAdmit(run: seq<Chan>, c: Chan, t: Tid, d: Desk) returns (run': seq<Chan>, d': Desk)
    requires Reaches(run, At(c, t, d)) && d.l.pc == RAdmitLock && d.op == Op.Idle && d.sh.lock == None
    ensures Reaches(run', At(c, t, d')) && d'.l.pc == ALoad && d'.op == Op.Idle
    ensures d'.m == d.m && d'.sh == d.sh.(lock := Some(t))
  {
    hide Reaches, At, ViewOf, BeginRecv, AfterPop, LockRecv, AfterPop1, AfterPop2, AfterHelp, AdmitLoad, AdmitTest,
         AdmitPush;
    var v := Sees(c, t, d);
    run', d' := Receiving(run, c, t, d, v, Go(d.l.(pc := ALoad)));
  }

  /** One round of the admitting loop that takes the first sender s out of the queue. */
  lemma TakesSender(run: seq<Chan>, c: Chan, t: Tid, d: Desk, s: Tid, y: Item) returns (run': seq<Chan>, d': Desk)
    requires Reaches(run, At(c, t, d)) && d.l.pc == ALoad && d.op == Op.Idle && d.m.ct <= d.m.ph < d.m.ct + d.m.cap
    requires d.sh.lock == Some(t) && d.sh.sendq == [s] && s in c.th && s != t && c.th[s].items == [y]
    ensures Reaches(run', At(c, t, d')) && d'.l.pc == APush(s) && d'.op == PLoadHead(false, [y])
    ensures d'.m == d.m && d'.sh == d.sh.(sendq := [])
  {
    hide Reaches, At, ViewOf, BeginRecv, AfterPop, LockRecv, AfterPop1, AfterPop2, AfterHelp, LockAdmit, AdmitLoad,
         AdmitPush;
    run', d' := LoadsHead(run, c, t, d);
    var v := Sees(c, t, d');
    run', d' := Receiving(run', c, t, d', v, Push(d'.l.(pc := APush(s)), false, [y]).(sq := Take));
  }

  /** One round that finds the ring full and returns. */
  lemma NobodyToAdmit(run: seq<Chan>, c: Chan, t: Tid, d: Desk) returns (run': seq<Chan>, d': Desk)
    requires Reaches(run, At(c, t, d)) && d.l.pc == ALoad && d.op == Op.Idle && d.m.ph == d.m.ct + d.m.cap
    requires d.sh.lock == Some(t)
    ensures Reaches(run', At(c, t, d')) && d'.l.pc == Rest && d'.op == Op.Idle
    ensures d'.m == d.m && d'.sh == d.sh.(lock := None)
  {
    hide Reaches, At, ViewOf, BeginRecv, AfterPop, LockRecv, AfterPop1, AfterPop2, AfterHelp, LockAdmit, AdmitLoad,
         AdmitPush;
    run', d' := LoadsHead(run, c, t, d);
    var v := Sees(c, t, d');
    run', d' := Receiving(run', c, t, d', v, EndRecv(d'.l, d'.l.done, Ok));
  }

  /** The waiter in hand is served. */
  lemma ServesSender(run: seq<Chan>, c: Chan, t: Tid, d: Desk, s: Tid, y: Item) returns (run': seq<Chan>, d': Desk)
    requires Reaches(run, At(c, t, d)) && d.l.pc == APush(s) && d.op.PRet? && d.op.sent == [y]
    requires s in c.th && s != t && d.sh.lock == Some(t)
    ensures Reaches(run', At(WithServed(c, s, [y]), t, d')) && d'.l.pc == ALoad && d'.op == Op.Idle
    ensures d'.m == d.m && d'.sh == d.sh
  {
    hide Reaches, At, ViewOf, SendProg, SleepProg, CloseProg, BeginRecv, AfterPop, LockRecv, AfterPop1, AfterPop2,
         AfterHelp, LockAdmit, AdmitLoad, AdmitTest;
    var e := Go(d.l.(pc := ALoad)).(sq := WakeHand, res := Ok, got := [y]);
    assert AdmitPush(d.l, d.op, e);
    run', d' := Serve(run, c, t, d, e, s);
  }

  lemma ServesReceiver(run: seq<Chan>, c: Chan, t: Tid, d: Desk, r: Tid, y: Item) returns (run': seq<Chan>, d': Desk)
    requires Reaches(run, At(c, t, d)) && d.l.pc == DPop(Finish, r) && d.op.CRet? && d.op.got == [y]
    requires r in c.th && r != t && d.sh.lock == Some(t)
    ensures Reaches(run', At(WithServed(c, r, [y]), t, d')) && d'.l.pc == DLoad(Finish) && d'.op == Op.Idle
    ensures d'.m == d.m && d'.sh == d.sh
  {
    hide Reaches, At, ViewOf, RecvProg, SleepProg, CloseProg, BeginSend, GateSend, AfterPush, LockDeliver, LockSend,
         AfterPush1, AfterPush2, DeliverLoad, DeliverTest;
    var e := Go(d.l.(pc := DLoad(Finish))).(rq := WakeHand, res := Ok, got := [y]);
    assert DeliverPop(d.l, d.op, e);
    run', d' := Serve(run, c, t, d, e, r);
  }

  /** A served waiter wakes up and returns. */
  lemma WakesAndLeaves(run: seq<Chan>, c: Chan, t: Tid, d: Desk) returns (run': seq<Chan>, d': Desk)
    requires Reaches(run, At(c, t, d)) && (d.l.pc == SParked || d.l.pc == RParked) && d.l.res.Some? && d.op == Op.Idle
    ensures Reaches(run', At(c, t, d')) && d'.l.pc == Rest && d'.op == Op.Idle && d'.m == d.m
    ensures d'.sh.sendq == d.sh.sendq && d'.sh.recvq == d.sh.recvq && d'.sh.lock == d.sh.lock
  {
    hide Reaches, At, ViewOf, SendProg, RecvProg, CloseProg;
    var pc := if d.l.pc == SParked then SWoken else RWoken;
    assert WakeUp(d.l, Go(d.l.(pc := pc)));
    run', d' := Act(run, c, t, d, Go(d.l.(pc := pc)));
    var res := d.l.res.value;
    var e := if pc == SWoken then EndSend(d'.l, if res == Ok then 1 else 0, res).(dsend := -1)
             else EndRecv(d'.l, if res == Ok then d'.l.done else [], res).(drecv := -1);
    run', d' := Act(run', c, t, d', e);
  }

  // ------------------------------------------------------------ executions

  ghost predicate Resting(c: Chan, t: Tid) {
    t in c.th && t in c.ring.ops && c.th[t].pc == Rest && c.ring.ops[t].Returned()
  }

  ghost predicate Parked(c: Chan, t: Tid, pc: Pc) {
    t in c.th && t in c.ring.ops && c.th[t].pc == pc && c.th[t].mode == Forever && c.ring.ops[t] == Op.Idle
  }

  ghost predicate Level(m: Mem<Item>, ph: nat, pt: nat, ch: nat, ct: nat) {
    m.cap == 1 && m.ph == ph && m.pt == pt && m.ch == ch && m.ct == ct
  }

  /** Threads 0, 1 and 2 and one slot. */
  lemma FreshChannel(prod: Option<Tid>, cons: Option<Tid>) returns (run: seq<Chan>, c: Chan)
    ensures Reaches(run, c) && c.prod == prod && c.cons == cons && c.th.Keys == {0, 1, 2}
    ensures Level(c.ring.m, 0, 0, 0, 0) && c.sh == Shared(None, 0, 0, [], [], false)
    ensures Resting(c, 0) && Resting(c, 1) && Resting(c, 2)
  {
    var l := Thread(Rest, Try, 0, [], false, 0, 0, None, []);
    var m: Mem<Item> := Mem(1, 0, 0, 0, 0, [Item(0, 0, [])], [], [], []);
    c := Chan(prod, cons, Ring(m, map[0 := Op.Idle, 1 := Op.Idle, 2 := Op.Idle]),
              Shared(None, 0, 0, [], [], false), map[0 := l, 1 := l, 2 := l], Log([], [], [], []));
    assert c.th.Keys == {0, 1, 2} == c.ring.ops.Keys;
    run := [c];
  }

  /** Receiver r has parked on the empty channel. */
  lemma ReceiverParks(prod: Option<Tid>, cons: Option<Tid>, r: Tid) returns (run: seq<Chan>, c: Chan)
    requires r < 2 && (cons == None || cons == Some(r))
    ensures Reaches(run, c) && c.prod == prod && c.cons == cons && c.th.Keys == {0, 1, 2}
    ensures Level(c.ring.m, 0, 0, 0, 0) && c.sh == Shared(None, 0, 1, [], [r], false) && Parked(c, r, RParked)
    ensures Resting(c, 1 - r) && Resting(c, 2)
  {
    hide Reaches;
    var d;
    run, c := FreshChannel(prod, cons);
    SitDown(c, r);
    run, d := ParkReceiver(run, c, r, DeskOf(c, r));
    c := At(c, r, d);
    assert [] + [r] == [r];
  }

  /** Two receivers: sender 1 has committed a value and is about to deliver it. */
  lemma ValueCommitted() returns (run: seq<Chan>, c: Chan)
    ensures Reaches(run, c) && c.prod == Some(1) && c.cons == None && c.th.Keys == {0, 1, 2}
    ensures Level(c.ring.m, 1, 1, 0, 0) && c.sh == Shared(None, 0, 1, [], [0], false) && Parked(c, 0, RParked)
    ensures 1 in c.ring.ops && c.th[1].pc == SDeliverLock && c.ring.ops[1] == Op.Idle && Resting(c, 2)
  {
    hide Reaches;
    run, c := ReceiverParks(Some(1), None, 0);
    SitDown(c, 1);
    var d, x;
    run, d, x := FastPush(run, c, 1, DeskOf(c, 1), []);
    run, d := CommitAndLook(run, c, 1, d, x);
    c := At(c, 1, d);
  }

  /** ... but thread 2 has reserved it. */
  lemma ValueTaken() returns (run: seq<Chan>, c: Chan)
    ensures Reaches(run, c) && c.prod == Some(1) && c.cons == None && c.th.Keys == {0, 1, 2}
    ensures Level(c.ring.m, 1, 1, 1, 0) && c.sh == Shared(None, 0, 1, [], [0], false) && Parked(c, 0, RParked)
    ensures 1 in c.ring.ops && c.th[1].pc == SDeliverLock && c.ring.ops[1] == Op.Idle
    ensures 2 in c.ring.ops && c.th[2].pc == RPop && c.ring.ops[2] == CRead(0, 1, [])
  {
    hide Reaches;
    var d;
    run, c := ValueCommitted();
    SitDown(c, 2);
    run, d := FastPop(run, c, 2, DeskOf(c, 2));
    c := At(c, 2, d);
  }

  /** ... so the sender delivers nothing, and parks on the full ring with its next value. */
  lemma SenderParksToo() returns (run: seq<Chan>, c: Chan, y: Item)
    ensures Reaches(run, c) && c.prod == Some(1) && c.cons == None && c.th.Keys == {0, 1, 2}
    ensures Level(c.ring.m, 1, 1, 1, 0) && c.sh == Shared(None, 1, 1, [1], [0], false)
    ensures Parked(c, 0, RParked) && Parked(c, 1, SParked) && c.th[1].items == [y]
    ensures 2 in c.ring.ops && c.th[2].pc == RPop && c.ring.ops[2] == CRead(0, 1, [])
  {
    hide Reaches;
    var d;
    run, c := ValueTaken();
    SitDown(c, 1);
    run, d := LocksToDeliver(run, c, 1, DeskOf(c, 1));
    run, d := NothingToDeliver(run, c, 1, d);
    run, d, y := ParkSender(run, c, 1, d, []);
    c := At(c, 1, d);
    assert [] + [1] == [1];
  }

  /** A channel with one sender and two receivers: receiver 0 is parked for good
      although a value is committed, and nobody else is inside any operation. */
  lemma TwoReceiversStuck() returns (run: seq<Chan>, c: Chan)
    ensures Reaches(run, c) && c.prod == Some(1) && c.cons == None && c.th.Keys == {0, 1, 2}
    ensures 0 in c.sh.recvq && Parked(c, 0, RParked) && c.ring.m.ch < c.ring.m.pt
    ensures Resting(c, 1) && Resting(c, 2)
  {
    hide Reaches;
    var d, y;
    run, c, y := SenderParksToo();
    SitDown(c, 2);
    run, d := ReleaseAndLook(run, c, 2, DeskOf(c, 2));
    run, d := TakesSender(run, c, 2, d, 1, y);
    run, d := PushReserve(run, c, 2, d, y);
    run, d := PushFinish(run, c, 2, d, y);
    run, d := ServesSender(run, c, 2, d, 1, y);
    c := WithServed(c, 1, [y]);
    run, d := NobodyToAdmit(run, c, 2, d);
    c := At(c, 2, d);
    SitDown(c, 1);
    run, d := WakesAndLeaves(run, c, 1, DeskOf(c, 1));
    c := At(c, 1, d);
  }

  /** Two senders: thread 2 has reserved the only slot and not committed it. */
  lemma SlotTaken() returns (run: seq<Chan>, c: Chan, x: Item)
    ensures Reaches(run, c) && c.prod == None && c.cons == Some(1) && c.th.Keys == {0, 1, 2}
    ensures Level(c.ring.m, 1, 0, 0, 0) && c.sh == Shared(None, 0, 1, [], [1], false)
    ensures Parked(c, 1, RParked) && Resting(c, 0)
    ensures 2 in c.ring.ops && c.th[2].pc == SPush && c.ring.ops[2] == PWrite(0, [x], 0)
  {
    hide Reaches;
    var d;
    run, c := ReceiverParks(None, Some(1), 1);
    SitDown(c, 2);
    run, d, x := FastPush(run, c, 2, DeskOf(c, 2), []);
    c := At(c, 2, d);
  }

  /** ... so sender 0 is refused, finds nothing to deliver, and parks. */
  lemma VictimParks() returns (run: seq<Chan>, c: Chan, x: Item)
    ensures Reaches(run, c) && c.prod == None && c.cons == Some(1) && c.th.Keys == {0, 1, 2}
    ensures Level(c.ring.m, 1, 0, 0, 0) && c.sh == Shared(None, 1, 1, [0], [1], false)
    ensures Parked(c, 1, RParked) && Parked(c, 0, SParked)
    ensures 2 in c.ring.ops && c.th[2].pc == SPush && c.ring.ops[2] == PWrite(0, [x], 0)
  {
    hide Reaches;
    var d, y;
    run, c, x := SlotTaken();
    SitDown(c, 0);
    run, d, y := ParkSender(run, c, 0, DeskOf(c, 0), []);
    c := At(c, 0, d);
    assert [] + [0] == [0];
  }

  /** A channel with two senders and one receiver: sender 0 is parked for good
      although the ring is empty, and nobody else is inside any operation. */
  lemma TwoSendersStuck() returns (run: seq<Chan>, c: Chan)
    ensures Reaches(run, c) && c.prod == None && c.cons == Some(1) && c.th.Keys == {0, 1, 2}
    ensures 0 in c.sh.sendq && Parked(c, 0, SParked) && c.ring.m.ph - c.ring.m.ct < c.ring.m.cap
    ensures Resting(c, 1) && Resting(c, 2)
  {
    hide Reaches;
    var d, x, y;
    run, c, x := VictimParks();
    SitDown(c, 2);
    run, d := CommitAndLook(run, c, 2, DeskOf(c, 2), x);
    run, d := LocksToDeliver(run, c, 2, d);
    run, d := TakesReceiver(run, c, 2, d, 1);
    run, d := PopReserve(run, c, 2, d);
    run, d, y := PopFinish(run, c, 2, d);
    run, d := ServesReceiver(run, c, 2, d, 1, y);
    c := WithServed(c, 1, [y]);
    run, d := NothingToDeliver(run, c, 2, d);
    c := At(c, 2, d);
    SitDown(c, 1);
    run, d := WakesAndLeaves(run, c, 1, DeskOf(c, 1));
    c := At(c, 1, d);
  }

  // ------------------------------------------------------- exact conditions

  /** A receiver asleep and unserved although a value is committed or a sender
      sleeps has another thread in flight. */
  ghost predicate ReceiverMinded(c: Chan, r: Tid) {
    && r in c.sh.recvq && r in c.th && Dozing(c.th[r])
    && (c.ring.m.ch < c.ring.m.pt || exists s :: s in c.sh.sendq && s in c.th && Asleep(c.th[s]))
    ==> exists p :: p != r && R.InFlight(c, p)
  }

  /** A sender asleep and unserved although a slot is free is owed a look by another thread. */
  ghost predicate SenderMinded(c: Chan, s: Tid) {
    && s in c.sh.sendq && s in c.th && Asleep(c.th[s]) && c.ring.m.ph - c.ring.m.ct < c.ring.m.cap
    ==> exists q :: q != s && S.Owed(c, q)
  }

  /** No receiver's wakeup is lost in any execution, exactly on channels on
      which one thread makes all the receives. */
  lemma ReceiverWakeupExact(cons: Option<Tid>)
    ensures cons.Some? <==> forall run, c, r :: Reaches(run, c) && c.cons == cons ==> ReceiverMinded(c, r)
  {
    hide Reaches, ReceiverMinded;
    if cons.Some? {
      forall run, c, r | Reaches(run, c) && c.cons == cons ensures ReceiverMinded(c, r) { OneReceiver(run, c, r); }
    } else {
      var run, c := TwoReceiversStuck();
      assert !ReceiverMinded(c, 0) by { StuckReceiver(run, c); }
    }
  }

  /** No sender's wakeup is lost in any execution, exactly on channels on which
      one thread makes all the sends. */
  lemma SenderWakeupExact(prod: Option<Tid>)
    ensures prod.Some? <==> forall run, c, s :: Reaches(run, c) && c.prod == prod ==> SenderMinded(c, s)
  {
    hide Reaches, SenderMinded;
    if prod.Some? {
      forall run, c, s | Reaches(run, c) && c.prod == prod ensures SenderMinded(c, s) { OneSender(run, c, s); }
    } else {
      var run, c := TwoSendersStuck();
      assert !SenderMinded(c, 0) by { StuckSender(c); }
    }
  }

  lemma {:induction false} RolesKept(run: seq<Chan>, i: nat)
    requires Channel.Run(run) && i < |run|
    ensures run[i].prod == run[0].prod && run[i].cons == run[0].cons
  {
    hide Prog, Step, Init;
    if i > 0 {
      RolesKept(run, i - 1);
      assert Channel.Next(run[i - 1], run[i]);
    }
  }

  lemma OneReceiver(run: seq<Chan>, c: Chan, r: Tid)
    requires Reaches(run, c) && c.cons.Some?
    ensures ReceiverMinded(c, r)
  {
    NotEmpty(run);
    var i := |run| - 1;
    hide Channel.Run, Base, Care;
    RolesKept(run, i);
    RunBase(run, i);
    RunCare(run, i);
    R.SoleQueued(c, c.cons.value);
    if r in c.sh.recvq && r in c.th && Dozing(c.th[r])
       && (c.ring.m.ch < c.ring.m.pt || exists s :: s in c.sh.sendq && s in c.th && Asleep(c.th[s]))
    {
      R.NoLostReceiverWakeup(run, i, r);
    }
  }

  lemma OneSender(run: seq<Chan>, c: Chan, s: Tid)
    requires Reaches(run, c) && c.prod.Some?
    ensures SenderMinded(c, s)
  {
    NotEmpty(run);
    var i := |run| - 1;
    hide Channel.Run, Base, Care;
    RolesKept(run, i);
    RunBase(run, i);
    RunCare(run, i);
    S.SoleQueued(c, c.prod.value);
    if s in c.sh.sendq && s in c.th && Asleep(c.th[s]) && c.ring.m.ph - c.ring.m.ct < c.ring.m.cap {
      S.NoLostSenderWakeup(run, i, s);
    }
  }

  lemma StuckReceiver(run: seq<Chan>, c: Chan)
    requires Reaches(run, c) && c.th.Keys == {0, 1, 2} && 0 in c.sh.recvq && c.ring.m.ch < c.ring.m.pt
    requires Parked(c, 0, RParked) && Resting(c, 1) && Resting(c, 2)
    ensures !ReceiverMinded(c, 0)
  {
    hide Channel.Run, OpFits, RequestOk;
    assert |run| > 0 by { NotEmpty(run); }
    RunBase(run, |run| - 1);
    forall p | p != 0 ensures !R.InFlight(c, p) { assert p in c.ring.ops ==> p in {0, 1, 2}; }
  }

  lemma StuckSender(c: Chan)
    requires c.th.Keys == {0, 1, 2} && 0 in c.sh.sendq && c.ring.m.ph - c.ring.m.ct < c.ring.m.cap
    requires Parked(c, 0, SParked) && Resting(c, 1) && Resting(c, 2)
    ensures !SenderMinded(c, 0)
  {
    forall q | q != 0 ensures !S.Owed(c, q) { assert q in c.th ==> q in {0, 1, 2}; }
  }
}
