/** No lost wakeup for the sender of a channel with one sender and any number
    of receivers, and what follows with one of each. */
module SenderWakeup {
  import opened Results
  import opened Seqs
  import opened Ring
  import opened Channel
  import opened ChannelBase
  import opened ChannelInv
  import opened ChannelDuty
  import opened ChannelClose
  import R = ReceiverWakeup

  /** Sender s is queued and is not about to try the ring again by itself. */
  ghost predicate Stuck(c: Chan, s: Tid) {
    s in c.sh.sendq && s in c.ring.ops && c.ring.ops[s].Returned() && OpSent(c.ring.ops[s]) == []
  }

  ghost predicate Owed(c: Chan, q: Tid) {
    q in c.th && q in c.ring.ops && OwesSender(c.th[q].pc, c.ring.ops[q], c.ring.m.cap, c.ring.m.ct)
  }

  ghost predicate HasRoom(m: Mem<Item>) { m.ph < m.ct + m.cap }

  /** A free slot means somebody owes the stuck sender a look. */
  ghost predicate RoomNoticed(c: Chan, s: Tid) {
    Stuck(c, s) && HasRoom(c.ring.m) ==> exists q :: Owed(c, q)
  }

  /** The push of a helping receiver sees the room it has been told about. */
  ghost predicate SeesRoom(m: Mem<Item>, op: Op<Item>) {
    match op
    case PLoadHead(_, _) => HasRoom(m)
    case PLoadTail(_, _, ph) => ph == m.ph && HasRoom(m)
    case PCas(_, _, ph, _) => ph == m.ph && HasRoom(m)
    case PRet(_, sent) => sent != []
    case _ => true
  }

  ghost predicate WatchOk(m: Mem<Item>, pc: Pc, op: Op<Item>, queued: bool) {
    match pc
    case ATest(head) => queued ==> head == m.ph
    case RHelp(_) | APush(_) => SeesRoom(m, op)
    case SPush2 => op.PLoadTail? ==> op.ph == m.ph
    case RPop1 => queued && op.CRet? && op.got != [] ==> HasRoom(m)
    case _ => true
  }

  ghost predicate Watch(c: Chan, s: Tid) {
    && c.prod == Some(s) && c.ring.ops.Keys == c.th.Keys
    && (forall u <- c.th :: WatchOk(c.ring.m, c.th[u].pc, c.ring.ops[u], s in c.sh.sendq))
    && RoomNoticed(c, s)
  }

  // -------------------------------------------------------- the sole sender

  /** A thread inside a push is the sender itself, or has it in hand. */
  lemma SolePusher(c: Chan, s: Tid, u: Tid)
    requires Base(c) && Care(c) && c.prod == Some(s) && u in c.th && !c.ring.ops[u].Returned() && c.th[u].pc.Pushing()
    ensures u == s || SendHand(c.th[u].pc) == Some(s)
    ensures Stuck(c, s) ==> false
    ensures forall h <- c.th :: SendHand(c.th[h].pc).Some? || c.th[h].pc.SPush2? ==> h == u
  {
    hide Inv, OpFits, OpenOk, RequestOk, Drained, SendRegs, RecvRegs, QueueOk;
    HandAsleep(c, u);
    QueuedWait(c);
    assert RoleOk(c, u);
    if SendHand(c.th[u].pc).Some? { assert RoleOk(c, SendHand(c.th[u].pc).value); HandNotQueued(c, u); }
    forall h <- c.th | SendHand(c.th[h].pc).Some? ensures h == u {
      HandAsleep(c, h);
      assert RoleOk(c, SendHand(c.th[h].pc).value);
    }
    forall h <- c.th | c.th[h].pc.SPush2? ensures h == u { assert RoleOk(c, h); }
  }

  lemma HandNotQueued(c: Chan, u: Tid)
    requires Base(c) && u in c.th && SendHand(c.th[u].pc).Some?
    ensures SendHand(c.th[u].pc).value !in c.sh.sendq
  {
    hide Inv, ThreadsOk, OpenOk;
    HandAsleep(c, u);
  }

  /** With one sender, the queue of senders is that sender or empty. */
  lemma SoleQueued(c: Chan, s: Tid)
    requires Base(c) && Care(c) && c.prod == Some(s)
    ensures c.sh.sendq == [] || c.sh.sendq == [s]
    ensures s in c.sh.sendq ==> s in c.th && s in SendRegs(c.th) && c.sh.sendCnt > 0
  {
    hide Inv, OpFits, OpenOk, RequestOk, Drained, RecvRegs;
    QueuedWait(c);
    var q := c.sh.sendq;
    forall i | 0 <= i < |q| ensures q[i] == s { assert q[i] in q && RoleOk(c, q[i]); }
    R.OddOneOut(q, s);
    if s in c.sh.sendq { assert s in SendRegs(c.th); }
  }

  /** While another thread has the lock, a queued sender is asleep. */
  lemma QueuedStuck(c: Chan, s: Tid, u: Tid)
    requires Base(c) && u in c.th && u != s && c.th[u].pc.Locked() && s in c.sh.sendq
    ensures Stuck(c, s)
  {
    hide Inv, OpenOk, RequestOk, QueueOk, PushFits, PopFits;
    QueuedWait(c);
    assert OpFits(c.ring.ops[s], c.th[s], AuthorItems(c.th, s));
  }

  // ------------------------------------------------------------- ring steps

  /** While the sender is stuck nothing enters the ring. */
  lemma Frozen(c: Chan, c': Chan, t: Tid, s: Tid)
    requires Base(c) && Care(c) && c.prod == Some(s) && RingStep(c, c', t) && Stuck(c, s)
    ensures c'.ring.m.ph == c.ring.m.ph && t in c.th && !c.th[t].pc.Pushing() && c.th[t].pc.Popping()
  {
    hide Base, Care, RingStep, Stuck, OpFits, OpOk, OpStep, EffectOf;
    R.RingMoves(c, c', t);
    if c.th[t].pc.Pushing() { SolePusher(c, s, t); }
  }

  lemma NotSender(c: Chan, s: Tid, u: Tid)
    requires Base(c) && s in c.sh.sendq && u in c.th && (RecvSide(c.th[u].pc) || c.th[u].pc.DPop?)
    ensures u != s && s in c.th && SendSide(c.th[s].pc)
  {
    hide Base;
    QueuedWait(c);
  }

  lemma RingStepWatches(c: Chan, c': Chan, t: Tid, s: Tid, u: Tid)
    requires Base(c) && Care(c) && Watch(c, s) && RingStep(c, c', t) && u in c.th && u in c'.ring.ops
    ensures WatchOk(c'.ring.m, c.th[u].pc, c'.ring.ops[u], s in c.sh.sendq)
  {
    hide Base, Care, RingStep, Stuck, OpFits, RoomNoticed, ReserveP, ReserveC, Slice, Owns, AllStored;
    R.RingMoves(c, c', t);
    assert WatchOk(c.ring.m, c.th[u].pc, c.ring.ops[u], s in c.sh.sendq);
    if c.th[u].pc.RHelp? || c.th[u].pc.APush? || c.th[u].pc.SPush2? {
      if u != t && c.th[t].pc.Pushing() { SolePusher(c, s, t); }
    } else if s in c.sh.sendq && (c.th[u].pc.ATest? || c.th[u].pc.RPop1?) {
      NotSender(c, s, u);
      QueuedStuck(c, s, u);
      Frozen(c, c', t, s);
    }
  }

  /** A release makes its receiver owe a look, unless it is a receiver that
      registered when no sender was queued, or one served by a sender or by close. */
  lemma Released(c: Chan, c': Chan, t: Tid, s: Tid)
    requires Base(c) && Care(c) && c.prod == Some(s) && RingStep(c, c', t)
    requires s in c.sh.sendq && c'.ring.m.ct != c.ring.m.ct
    ensures Owed(c', t)
  {
    hide Base, RingStep, SendRegs, RecvRegs, OpOk, OpStep, OpFits, EffectOf;
    R.RingMoves(c, c', t);
    assert RoleOk(c, t);
    QueuedWait(c);
    if c.th[t].pc.Locked() { HandAsleep(c, t); }
    R.CommitNonEmpty(c.ring.m, c.ring.ops[t], c'.ring.m, c'.ring.ops[t], t);
  }

  lemma OwingIsReturned(c: Chan, q: Tid)
    requires Base(c) && Owed(c, q)
    ensures c.ring.ops[q].Returned()
  {
    hide Inv, QueueOk, OpenOk, RequestOk, PushFits, PopFits;
    assert OpFits(c.ring.ops[q], c.th[q], AuthorItems(c.th, q));
  }

  /** A sender that becomes stuck by a ring step has just found the ring full. */
  lemma FoundFull(c: Chan, c': Chan, s: Tid)
    requires Base(c) && Watch(c, s) && RingStep(c, c', s) && !Stuck(c, s) && Stuck(c', s)
    ensures !HasRoom(c'.ring.m)
  {
    hide QueueOk, OpenOk, RequestOk, AllStored, Covered, RoomNoticed;
    QueuedWait(c);
    assert OpFits(c.ring.ops[s], c.th[s], AuthorItems(c.th, s)) && OpOk(c.ring.m, s, c.ring.ops[s]);
    assert WatchOk(c.ring.m, c.th[s].pc, c.ring.ops[s], s in c.sh.sendq);
  }

  lemma RingStepNotices(c: Chan, c': Chan, t: Tid, s: Tid)
    requires Base(c) && Care(c) && Watch(c, s) && RingStep(c, c', t)
    ensures RoomNoticed(c', s)
  {
    hide Base, Care, OpFits, WatchOk, Leaves, Step, OpOk, OpStep, EffectOf, OwesSender;
    R.RingMoves(c, c', t);
    if Stuck(c', s) && HasRoom(c'.ring.m) {
      if Stuck(c, s) {
        Frozen(c, c', t, s);
        if c'.ring.m.ct != c.ring.m.ct {
          Released(c, c', t, s);
        } else {
          var q :| Owed(c, q);
          OwingIsReturned(c, q);
          assert Owed(c', q);
        }
      } else {
        FoundFull(c, c', s);
      }
    }
  }

  lemma RingStepKeepsWatch(c: Chan, c': Chan, t: Tid, s: Tid)
    requires Base(c) && Care(c) && Watch(c, s) && RingStep(c, c', t)
    ensures Watch(c', s)
  {
    hide Base, Care, OpFits, RingStep, RoomNoticed, WatchOk, OpStep, OpOk, EffectOf;
    R.RingMoves(c, c', t);
    RingStepNotices(c, c', t, s);
    forall u <- c'.th ensures WatchOk(c'.ring.m, c'.th[u].pc, c'.ring.ops[u], s in c'.sh.sendq) {
      RingStepWatches(c, c', t, s, u);
    }
  }

  // ---------------------------------------------------------- control steps

  lemma TakesSender(c: Chan, t: Tid, e: Eff, s: Tid)
    requires Base(c) && Care(c) && t in c.th && t in c.ring.ops && c.prod == Some(s)
    requires Post(t, c.th[t], c.ring.ops[t], ViewOf(c, t), e)
    ensures e.sq.Take? || e.sq.WakeHead? ==> c.sh.sendq == [s]
    ensures e.sq.PutBack? ==> OpSent(c.ring.ops[t]) == []
    ensures var v, m := ViewOf(c, t), c.ring.m; v.ph == m.ph && v.ct == m.ct && v.cap == m.cap
  {
    hide Base, Care, RequestOk, OpFits, OwnLedger, WaitMove;
    SoleQueued(c, s);
  }

  lemma ArrivesWatching(m: Mem<Item>, t: Tid, l: Thread, op: Op<Item>, v: View, e: Eff, queued: bool, queued': bool)
    requires Cursors(m) && Post(t, l, op, v, e) && Dutiful(l, op, v, e) && WatchOk(m, l.pc, op, queued)
    requires v.ph == m.ph && v.ct == m.ct && v.cap == m.cap && (e.sq.Take? ==> queued)
    ensures WatchOk(m, e.l.pc, e.op, queued')
  {
    hide Lawful, OwnLedger, WaiterLedger, RequestOk, KeepsDuty, Drains;
  }

  lemma ControlWatches(c: Chan, c': Chan, t: Tid, e: Eff, s: Tid, u: Tid)
    requires Base(c) && Care(c) && Watch(c, s) && Control(c, c', t, e) && u in c.th && u in c'.th && u in c'.ring.ops
    ensures WatchOk(c'.ring.m, c'.th[u].pc, c'.ring.ops[u], s in c'.sh.sendq)
  {
    hide Base, Care, Control, Post, Dutiful, RoomNoticed, QApply, ViewOf, SeesRoom, HasRoom;
    ControlFrame(c, c', t, e);
    if u == t {
      R.BaseCursors(c);
      TakesSender(c, t, e, s);
      ArrivesWatching(c.ring.m, t, c.th[t], c.ring.ops[t], ViewOf(c, t), e, s in c.sh.sendq, s in c'.sh.sendq);
    } else if c.th[u].pc.Locked() {
      R.LockedOut(c, c', t, e, u);
    }
  }

  lemma Requeues(m: Mem<Item>, t: Tid, l: Thread, op: Op<Item>, v: View, e: Eff, queued: bool)
    requires Post(t, l, op, v, e) && Dutiful(l, op, v, e) && WatchOk(m, l.pc, op, queued)
    requires SendHand(l.pc).Some? ==> op.PRet?
    ensures e.sq.Join? ==> e.op.PLoadHead? && e.l.pc == SPush2
    ensures !e.sq.PutBack?
    ensures SendWaits(l) ==> e.sq.Keep? || e.sq.Quit?
  {
    hide Numbered, KeepsDuty, OwnLedger;
  }

  /** A control step queues the sender only when the sender registers itself. */
  lemma StillQueued(c: Chan, c': Chan, t: Tid, e: Eff, s: Tid)
    requires Base(c) && Care(c) && Watch(c, s) && Control(c, c', t, e) && s in c'.sh.sendq
    ensures || (t == s && e.op.PLoadHead? && e.l.pc == SPush2)
            || (s in c.sh.sendq && !e.sq.Take? && !e.sq.WakeHead? && (t == s ==> e.sq.Keep?))
  {
    hide Base, Care, Control, Post, Dutiful, RoomNoticed, ViewOf;
    ControlFrame(c, c', t, e);
    TakesSender(c, t, e, s);
    assert WatchOk(c.ring.m, c.th[t].pc, c.ring.ops[t], s in c.sh.sendq);
    R.OwnFit(c, t);
    QueuedWait(c);
    Requeues(c.ring.m, t, c.th[t], c.ring.ops[t], ViewOf(c, t), e, s in c.sh.sendq);
  }

  lemma KeepsWaiting(t: Tid, l: Thread, op: Op<Item>, v: View, e: Eff)
    requires Post(t, l, op, v, e) && e.sq.Keep?
    ensures SendWaits(e.l) == SendWaits(l)
  {
    hide Shape, OwnLedger, WaiterLedger;
  }

  /** A sender stuck after a control step was stuck before it. */
  lemma StillStuck(c: Chan, c': Chan, t: Tid, e: Eff, s: Tid)
    requires Base(c) && Care(c) && Watch(c, s) && Control(c, c', t, e) && Stuck(c', s)
    ensures Stuck(c, s) && !e.sq.Take? && !e.sq.WakeHead?
  {
    hide Base, Care, Control, Lawful, OwnLedger, WaiterLedger, KeepsDuty, Drains, ViewOf, WatchOk, RoomNoticed,
         RequestOk;
    ControlFrame(c, c', t, e);
    StillQueued(c, c', t, e, s);
    R.OwnFit(c, t);
    if t == s {
      QueuedWait(c);
      assert SendWaits(e.l) by { KeepsWaiting(t, c.th[t], c.ring.ops[t], ViewOf(c, t), e); }
    }
  }

  lemma StuckQueued(c: Chan, s: Tid)
    requires Stuck(c, s)
    ensures s in c.sh.sendq
  {
  }

  lemma ControlNotices(c: Chan, c': Chan, t: Tid, e: Eff, s: Tid)
    requires Base(c) && Care(c) && Watch(c, s) && Control(c, c', t, e)
    ensures RoomNoticed(c', s)
  {
    hide Base, Care, Control, Post, Arrives, Drains, WatchOk, QApply, OwesSender, Stuck;
    ControlFrame(c, c', t, e);
    if Stuck(c', s) && HasRoom(c'.ring.m) {
      R.BaseCursors(c);
      StillStuck(c, c', t, e, s);
      var q :| Owed(c, q);
      assert s in c.sh.sendq by { StuckQueued(c, s); }
      SoleQueued(c, s);
      assert Owed(c', q);
    }
  }

  lemma ControlKeepsWatch(c: Chan, c': Chan, t: Tid, e: Eff, s: Tid)
    requires Base(c) && Care(c) && Watch(c, s) && Control(c, c', t, e)
    ensures Watch(c', s)
  {
    hide Base, Care, Control, Post, Dutiful, RoomNoticed, ViewOf, WatchOk, QApply;
    ControlFrame(c, c', t, e);
    ControlNotices(c, c', t, e, s);
    forall u <- c'.th ensures WatchOk(c'.ring.m, c'.th[u].pc, c'.ring.ops[u], s in c'.sh.sendq) {
      ControlWatches(c, c', t, e, s, u);
    }
  }

  lemma {:induction false} RunWatch(run: seq<Chan>, i: nat, s: Tid)
    requires Channel.Run(run) && i < |run| && run[0].prod == Some(s)
    ensures Watch(run[i], s)
  {
    hide Base, Care, Watch, RingStep, Control;
    if i == 0 {
      InitWatch(run[0], s);
    } else {
      RunWatch(run, i - 1, s);
      RunBase(run, i - 1);
      RunCare(run, i - 1);
      var c, c' := run[i - 1], run[i];
      assert Channel.Next(c, c');
      var t: Tid :| StepBy(c, c', t);
      if RingStep(c, c', t) {
        RingStepKeepsWatch(c, c', t, s);
      } else {
        var e :| Control(c, c', t, e);
        ControlKeepsWatch(c, c', t, e, s);
      }
    }
  }

  lemma InitWatch(c: Chan, s: Tid)
    requires Init(c) && c.prod == Some(s)
    ensures Watch(c, s)
  {
  }

  // -------------------------------------------------------------- theorems

  /** No lost wakeup: while the only sender sleeps unserved although the ring
      has a free slot, some other thread owes it a look. */
  lemma NoLostSenderWakeup(run: seq<Chan>, i: nat, s: Tid)
    requires Channel.Run(run) && i < |run| && run[0].prod == Some(s)
    requires var c := run[i];
      s in c.sh.sendq && s in c.th && Asleep(c.th[s]) && c.ring.m.ph - c.ring.m.ct < c.ring.m.cap
    ensures exists q :: q != s && Owed(run[i], q)
  {
    hide Channel.Run, Care, WatchOk, Base;
    var c := run[i];
    RunBase(run, i);
    RunWatch(run, i, s);
    AsleepStuck(c, s);
    var q :| Owed(c, q);
    assert q != s;
  }

  lemma AsleepStuck(c: Chan, s: Tid)
    requires Base(c) && s in c.sh.sendq && s in c.th && Asleep(c.th[s])
    ensures Stuck(c, s)
  {
    hide Inv, OpenOk, RequestOk, QueueOk, PushFits, PopFits;
    assert OpFits(c.ring.ops[s], c.th[s], AuthorItems(c.th, s));
  }

  /** A thread that owes the stuck sender a look comes nearer with every step
      it takes, until it takes the sender out of the queue. */
  lemma DutyAdvances(c: Chan, c': Chan, t: Tid, e: Eff, s: Tid)
    requires Base(c) && Care(c) && c.prod == Some(s) && Control(c, c', t, e)
    requires Stuck(c, s) && HasRoom(c.ring.m) && Owed(c, t)
    ensures || c'.sh.sendq == []
            || (Owed(c', t) && Distance(c'.th[t].pc, |c'.sh.sendq|) < Distance(c.th[t].pc, |c.sh.sendq|))
  {
    hide Base, Care, Control, Shape, OwnLedger, WaiterLedger, Drains, WaitMove, RequestOk, Without;
    ControlFrame(c, c', t, e);
    R.BaseCursors(c);
    SoleQueued(c, s);
    R.ShrinksBySteps(c.th[t].pc, e.l.pc, c.sh.sendq, e.sq, t);
  }

  /** The push of a receiver that has taken the sender out of the queue is never refused. */
  lemma AdmissionSucceeds(run: seq<Chan>, i: nat, s: Tid, h: Tid)
    requires Channel.Run(run) && i < |run| && run[0].prod == Some(s)
    requires h in run[i].th && (run[i].th[h].pc.RHelp? || run[i].th[h].pc.APush?)
    requires h in run[i].ring.ops && run[i].ring.ops[h].PRet?
    ensures run[i].ring.ops[h].sent != []
  {
    hide Channel.Run, RoomNoticed;
    RunWatch(run, i, s);
    assert WatchOk(run[i].ring.m, run[i].th[h].pc, run[i].ring.ops[h], s in run[i].sh.sendq);
  }

  /** The sender and the receiver are both queued and asleep. */
  ghost predicate BothAsleep(c: Chan, s: Tid, r: Tid) {
    && s in c.sh.sendq && s in c.th && Asleep(c.th[s])
    && r in c.sh.recvq && r in c.th && Dozing(c.th[r])
  }

  /** One sender, one receiver: they are never asleep and unserved at the same time. */
  lemma {:induction false} NeverBothAsleep(run: seq<Chan>, i: nat, s: Tid, r: Tid)
    requires Channel.Run(run) && i < |run| && run[0].prod == Some(s) && run[0].cons == Some(r)
    ensures !BothAsleep(run[i], s, r)
  {
    hide Base, Care, StepBy;
    if i > 0 {
      NeverBothAsleep(run, i - 1, s, r);
      RunBase(run, i - 1);
      RunCare(run, i - 1);
      assert Channel.Next(run[i - 1], run[i]);
      var t: Tid :| StepBy(run[i - 1], run[i], t);
      BothOnlyWhileClosing(run, i, s, r);
      if BothAsleep(run[i], s, r) { NoSleepWhileClosing(run[i - 1], run[i], t, s, r); }
    }
  }

  /** Nobody falls asleep while a closer holds the lock, and it only removes waiters. */
  lemma NoSleepWhileClosing(c: Chan, c': Chan, t: Tid, s: Tid, r: Tid)
    requires Base(c) && Care(c) && StepBy(c, c', t) && BothAsleep(c', s, r) && Draining(HolderPc(c'.sh, c'.th))
    ensures BothAsleep(c, s, r)
  {
    hide Base, Care, Control, Post, Dutiful, ViewOf, Step;
    if e :| Control(c, c', t, e) {
      ControlFrame(c, c', t, e);
      R.FallsAsleep(c.th[t], c.ring.ops[t], ViewOf(c, t), e);
      ClosersPutNobodyBack(t, c.th[t], c.ring.ops[t], ViewOf(c, t), e);
    }
  }

  lemma ClosersPutNobodyBack(t: Tid, l: Thread, op: Op<Item>, v: View, e: Eff)
    requires Post(t, l, op, v, e) && Dutiful(l, op, v, e)
    ensures Draining(e.l.pc) ==> !e.sq.PutBack? && !e.rq.PutBack?
  {
    hide KeepsDuty, OwnLedger, WaiterLedger, WaitMove;
  }

  /** A state with both asleep would be one in which a close is about to wake both. */
  lemma BothOnlyWhileClosing(run: seq<Chan>, i: nat, s: Tid, r: Tid)
    requires Channel.Run(run) && i < |run| && run[0].prod == Some(s) && run[0].cons == Some(r)
    ensures BothAsleep(run[i], s, r) ==> run[i].sh.closed && Draining(HolderPc(run[i].sh, run[i].th))
  {
    hide Channel.Run, R.WatchOk, WatchOk, Base, Care;
    var c := run[i];
    if BothAsleep(c, s, r) {
      RunBase(run, i);
      RunCare(run, i);
      R.RunWatch(run, i, r);
      RunWatch(run, i, s);
      R.Noticed(c, r);
      var p :| p != r && R.InFlight(c, p);
      OnlyClosing(c, s, r, p);
    }
  }

  lemma OnlyClosing(c: Chan, s: Tid, r: Tid, p: Tid)
    requires Base(c) && Care(c) && c.prod == Some(s) && c.cons == Some(r)
    requires s in c.th && Asleep(c.th[s]) && r in c.th && Dozing(c.th[r])
    requires p != r && R.InFlight(c, p)
    ensures c.sh.closed && Draining(HolderPc(c.sh, c.th))
  {
    hide Inv, QueueOk, OpenOk, RequestOk, PopFits, SendRegs, RecvRegs;
    assert RoleOk(c, p);
    assert OpFits(c.ring.ops[p], c.th[p], AuthorItems(c.th, p));
    if c.th[p].pc.Locked() { HandAsleep(c, p); }
  }
}
