/** No lost wakeup for the receiver of a channel with one receiver and any
    number of senders. */
module ReceiverWakeup {
  import opened Results
  import opened Seqs
  import opened Ring
  import opened Channel
  import opened ChannelBase
  import opened ChannelInv
  import opened ChannelDuty
  import opened ChannelClose

  /** Receiver r is queued and is not about to look at the ring again by itself. */
  ghost predicate Stuck(c: Chan, r: Tid) {
    r in c.sh.recvq && r in c.ring.ops && c.ring.ops[r].Returned() && RetGot(c.ring.ops[r]) == []
  }

  ghost predicate Owed(c: Chan, p: Tid) {
    p in c.th && p in c.ring.ops && OwesReceiver(c.th[p].pc, c.ring.ops[p], c.ring.m.ch)
  }

  /** A committed value means somebody owes the stuck receiver a look. */
  ghost predicate ValueNoticed(c: Chan, r: Tid) {
    Stuck(c, r) && c.ring.m.ch < c.ring.m.pt ==> exists p :: Owed(c, p)
  }

  /** A sender asleep beside a sleeping receiver means the ring is not empty. */
  ghost predicate SenderNoticed(c: Chan, r: Tid) {
    forall s :: r in c.sh.recvq && r in c.th && Dozing(c.th[r]) && s in c.sh.sendq && s in c.th && Asleep(c.th[s]) ==>
      c.ring.m.ch < c.ring.m.ph
  }

  /** The pop of a delivering sender sees the value it has been told about. */
  ghost predicate SeesValue(m: Mem<Item>, op: Op<Item>) {
    match op
    case CLoadHead(_) => m.ch < m.pt
    case CLoadTail(_, ch) => ch == m.ch < m.pt
    case CCas(_, ch, _) => ch == m.ch < m.pt
    case CRet(_, got) => got != []
    case _ => true
  }

  /** A registered recheck that finds the ring full finds it non-empty. */
  ghost predicate SeesFull(m: Mem<Item>, op: Op<Item>) {
    match op
    case PLoadTail(_, _, ph) => m.ch <= ph
    case PRet(_, sent) => sent == [] ==> m.ch < m.ph
    case _ => true
  }

  ghost predicate WatchOk(m: Mem<Item>, pc: Pc, op: Op<Item>, queued: bool) {
    match pc
    case DTest(_, tail) => queued ==> m.ch <= tail <= m.pt
    case DPop(_, _) => SeesValue(m, op)
    case SPush2 => queued ==> SeesFull(m, op)
    case _ => true
  }

  ghost predicate Watch(c: Chan, r: Tid) {
    && c.cons == Some(r) && c.ring.ops.Keys == c.th.Keys
    && (forall u <- c.th :: WatchOk(c.ring.m, c.th[u].pc, c.ring.ops[u], r in c.sh.recvq))
    && ValueNoticed(c, r) && SenderNoticed(c, r)
  }

  // ------------------------------------------------------ the sole receiver

  /** A thread inside a pop is the receiver itself, or has it in hand. */
  lemma SolePopper(c: Chan, r: Tid, u: Tid)
    requires Base(c) && Care(c) && c.cons == Some(r) && u in c.th && !c.ring.ops[u].Returned() && c.th[u].pc.Popping()
    ensures u == r || RecvHand(c.th[u].pc) == Some(r)
    ensures Stuck(c, r) ==> false
    ensures forall h <- c.th :: RecvHand(c.th[h].pc).Some? ==> h == u
  {
    hide Inv, OpFits, OpenOk, RequestOk, Drained, SendRegs, RecvRegs, QueueOk;
    HandAsleep(c, u);
    QueuedWait(c);
    assert RoleOk(c, u);
    if RecvHand(c.th[u].pc).Some? { assert RoleOk(c, RecvHand(c.th[u].pc).value); HandNotQueued(c, u); }
    forall h <- c.th | RecvHand(c.th[h].pc).Some? ensures h == u {
      HandAsleep(c, h);
      assert RoleOk(c, RecvHand(c.th[h].pc).value);
    }
  }

  lemma HandNotQueued(c: Chan, u: Tid)
    requires Base(c) && u in c.th && RecvHand(c.th[u].pc).Some?
    ensures RecvHand(c.th[u].pc).value !in c.sh.recvq
  {
    hide Inv, ThreadsOk, OpenOk;
    HandAsleep(c, u);
  }

  lemma OddOneOut(q: seq<Tid>, r: Tid)
    requires Distinct(q)
    ensures |q| > 1 ==> q[0] != r || q[1] != r
  {
  }

  /** With one receiver, the queue of receivers is that receiver or empty. */
  lemma SoleQueued(c: Chan, r: Tid)
    requires Base(c) && Care(c) && c.cons == Some(r)
    ensures c.sh.recvq == [] || c.sh.recvq == [r]
    ensures r in c.sh.recvq ==> r in c.th && r in RecvRegs(c.th) && c.sh.recvCnt > 0
  {
    hide Inv, OpFits, OpenOk, RequestOk, Drained, SendRegs;
    QueuedWait(c);
    var q := c.sh.recvq;
    forall i | 0 <= i < |q| ensures q[i] == r { assert q[i] in q && RoleOk(c, q[i]); }
    OddOneOut(q, r);
    if r in c.sh.recvq { assert r in RecvRegs(c.th); }
  }

  /** While another thread has the lock, a queued receiver is asleep. */
  lemma QueuedStuck(c: Chan, r: Tid, u: Tid)
    requires Base(c) && u in c.th && u != r && c.th[u].pc.Locked() && r in c.sh.recvq
    ensures Stuck(c, r)
  {
    hide Inv, OpenOk, RequestOk, QueueOk, PushFits, PopFits;
    QueuedWait(c);
    assert OpFits(c.ring.ops[r], c.th[r], AuthorItems(c.th, r));
  }

  // ------------------------------------------------------------- ring steps

  /** What a ring step does to the cursors. */
  lemma RingMoves(c: Chan, c': Chan, t: Tid)
    requires Base(c) && RingStep(c, c', t)
    ensures t in c.th && t in c.ring.ops && t in c'.ring.ops && c.ring.ops.Keys == c.th.Keys
    ensures c'.th == c.th && c'.sh == c.sh && c'.prod == c.prod && c'.cons == c.cons
    ensures var m, m' := c.ring.m, c'.ring.m; var f := EffectOf(c.ring.ops[t], c'.ring.ops[t]);
      && Cursors(m) && Cursors(m') && m'.cap == m.cap && !c.ring.ops[t].Returned()
      && m.ph <= m'.ph && m.pt <= m'.pt && m.ch <= m'.ch && m.ct <= m'.ct
      && (f.ResP? || m'.ph == m.ph) && (f.ComP? || m'.pt == m.pt)
      && (f.ResC? || m'.ch == m.ch) && (f.ComC? || m'.ct == m.ct)
      && (c.th[t].pc.Popping() || (m'.ch == m.ch && m'.ct == m.ct))
      && (c.th[t].pc.Pushing() || (m'.ph == m.ph && m'.pt == m.pt))
    ensures c.th[t].pc.Popping() || c.th[t].pc.Pushing()
    ensures OpFits(c.ring.ops[t], c.th[t], AuthorItems(c.th, t)) && OpOk(c.ring.m, t, c.ring.ops[t])
    ensures c'.ring.ops == c.ring.ops[t := c'.ring.ops[t]]
    ensures OpStep(c.ring.m, c.ring.ops[t], c'.ring.m, c'.ring.ops[t], t)
  {
    hide QueueOk, LockOk, OpenOk, RequestOk, Covered, AllStored, Leaves, PushFits, PopFits, Slice, Owns;
    var op, op' := c.ring.ops[t], c'.ring.ops[t];
    StepEffect(c.ring.m, op, c'.ring.m, op', t);
    assert OpFits(op, c.th[t], AuthorItems(c.th, t));
    RingStepFits(c.ring.m, op, c'.ring.m, op', t, c.th[t], AuthorItems(c.th, t));
    FitsEffect(op, op', c.th[t], AuthorItems(c.th, t));
  }

  lemma FitsEffect(op: Op<Item>, op': Op<Item>, l: Thread, items: seq<Item>)
    requires OpFits(op, l, items) && OpFits(op', l, items) && !op.Returned()
    ensures var f := EffectOf(op, op');
      && (l.pc.Pushing() || (!f.ResP? && !f.ComP?)) && (l.pc.Popping() || (!f.ResC? && !f.ComC?))
      && (l.pc.Popping() || l.pc.Pushing())
  {
  }

  /** While the receiver is stuck nothing leaves the ring, and nothing is on its way out. */
  lemma Frozen(c: Chan, c': Chan, t: Tid, r: Tid)
    requires Base(c) && Care(c) && c.cons == Some(r) && RingStep(c, c', t) && Stuck(c, r)
    ensures c'.ring.m.ch == c.ring.m.ch == c.ring.m.ct == c'.ring.m.ct && !c.th[t].pc.Popping() && c.th[t].pc.Pushing()
  {
    hide Base, Care, RingStep, Stuck, OpFits, OpOk, OpStep, EffectOf;
    RingMoves(c, c', t);
    if c.th[t].pc.Popping() { SolePopper(c, r, t); }
    NothingLeaving(c, r);
  }

  lemma NothingLeaving(c: Chan, r: Tid)
    requires Base(c) && Care(c) && c.cons == Some(r) && Stuck(c, r)
    ensures c.ring.m.ch == c.ring.m.ct
  {
    hide Care, QueueOk, LockOk, OpenOk, RequestOk, AllOk, AllStored, Stuck, AuthorItems;
    if c.ring.m.ct < c.ring.m.ch {
      var u := c.ring.m.cowner[c.ring.m.ct];
      assert CHolds(c.ring.ops, u, c.ring.m.ct) && OpFits(c.ring.ops[u], c.th[u], AuthorItems(c.th, u));
      SolePopper(c, r, u);
    }
  }

  lemma RingStepWatches(c: Chan, c': Chan, t: Tid, r: Tid, u: Tid)
    requires Base(c) && Care(c) && Watch(c, r) && RingStep(c, c', t) && u in c.th && u in c'.ring.ops
    ensures WatchOk(c'.ring.m, c.th[u].pc, c'.ring.ops[u], r in c.sh.recvq)
  {
    hide Base, Care, RingStep, Stuck, OpFits, ValueNoticed, SenderNoticed, ReserveP, ReserveC, Slice, Owns, AllStored;
    RingMoves(c, c', t);
    assert WatchOk(c.ring.m, c.th[u].pc, c.ring.ops[u], r in c.sh.recvq);
    if c.th[u].pc.DPop? {
      if u != t && c.th[t].pc.Popping() { SolePopper(c, r, t); }
    } else if r in c.sh.recvq && (c.th[u].pc.DTest? || c.th[u].pc.SPush2?) {
      NotReceiver(c, r, u);
      QueuedStuck(c, r, u);
      Frozen(c, c', t, r);
    }
  }

  lemma NotReceiver(c: Chan, r: Tid, u: Tid)
    requires Base(c) && r in c.sh.recvq && u in c.th && (SendSide(c.th[u].pc) || c.th[u].pc.RHelp? || c.th[u].pc.APush?)
    ensures u != r && r in c.th && RecvSide(c.th[r].pc)
  {
    hide Base;
    QueuedWait(c);
  }

  lemma RingStepNotices(c: Chan, c': Chan, t: Tid, r: Tid)
    requires Base(c) && Care(c) && Watch(c, r) && RingStep(c, c', t)
    ensures ValueNoticed(c', r)
  {
    hide Base, Care, OpFits, SenderNoticed, WatchOk, Leaves, Step, OpOk, OpStep, EffectOf;
    RingMoves(c, c', t);
    var m, m' := c.ring.m, c'.ring.m;
    if Stuck(c', r) && m'.ch < m'.pt {
      if Stuck(c, r) {
        Frozen(c, c', t, r);
        if m'.pt != m.pt {
          Committed(c, c', t, r);
          assert Owed(c', t);
        } else {
          var p :| Owed(c, p);
          OwingIsReturned(c, p);
          assert Owed(c', p);
        }
      } else {
        FoundEmpty(c, c', r);
      }
    }
  }

  lemma OwingIsReturned(c: Chan, p: Tid)
    requires Base(c) && Owed(c, p)
    ensures c.ring.ops[p].Returned()
  {
    hide Inv, QueueOk, OpenOk, RequestOk, PushFits, PopFits;
    assert OpFits(c.ring.ops[p], c.th[p], AuthorItems(c.th, p));
  }

  /** A commit makes its sender owe a look. */
  lemma Committed(c: Chan, c': Chan, t: Tid, r: Tid)
    requires Base(c) && Care(c) && c.cons == Some(r) && RingStep(c, c', t)
    requires r in c.sh.recvq && c'.ring.m.pt != c.ring.m.pt
    ensures Owed(c', t)
  {
    hide Base, RingStep, Drained, SendRegs, RecvRegs, OpOk, OpStep, OpFits, EffectOf;
    RingMoves(c, c', t);
    assert RoleOk(c, t);
    QueuedWait(c);
    CommitNonEmpty(c.ring.m, c.ring.ops[t], c'.ring.m, c'.ring.ops[t], t);
  }

  lemma CommitNonEmpty(m: Mem<Item>, op: Op<Item>, m': Mem<Item>, op': Op<Item>, t: Tid)
    requires OpOk(m, t, op) && OpStep(m, op, m', op', t)
    ensures m'.pt != m.pt ==> op'.PRet? && op'.sent != []
    ensures m'.ct != m.ct ==> op'.CRet? && op'.got != []
  {
    hide Slice, Owns, AllStored;
  }

  /** A receiver that becomes stuck by a ring step has just found the ring empty. */
  lemma FoundEmpty(c: Chan, c': Chan, r: Tid)
    requires Base(c) && RingStep(c, c', r) && !Stuck(c, r) && Stuck(c', r)
    ensures c'.ring.m.ch == c'.ring.m.pt
  {
    hide QueueOk, OpenOk, RequestOk, AllStored, Covered;
    QueuedWait(c);
    assert OpFits(c.ring.ops[r], c.th[r], AuthorItems(c.th, r)) && OpOk(c.ring.m, r, c.ring.ops[r]);
  }

  lemma DozingStuck(c: Chan, r: Tid)
    requires Base(c) && r in c.sh.recvq && r in c.th && Dozing(c.th[r])
    ensures Stuck(c, r)
  {
    hide Inv, OpenOk, RequestOk, QueueOk, PushFits, PopFits;
    assert OpFits(c.ring.ops[r], c.th[r], AuthorItems(c.th, r));
  }

  lemma RingStepKeepsWatch(c: Chan, c': Chan, t: Tid, r: Tid)
    requires Base(c) && Care(c) && Watch(c, r) && RingStep(c, c', t)
    ensures Watch(c', r)
  {
    hide Base, Care, OpFits, RingStep, ValueNoticed, WatchOk, OpStep, OpOk, EffectOf;
    RingMoves(c, c', t);
    RingStepNotices(c, c', t, r);
    forall u <- c'.th ensures WatchOk(c'.ring.m, c'.th[u].pc, c'.ring.ops[u], r in c'.sh.recvq) {
      RingStepWatches(c, c', t, r, u);
    }
    if r in c.sh.recvq && r in c.th && Dozing(c.th[r]) { DozingStuck(c, r); Frozen(c, c', t, r); }
  }

  // ---------------------------------------------------------- control steps

  /** A control step by another thread than the lock holder leaves the queues alone. */
  lemma LockedOut(c: Chan, c': Chan, t: Tid, e: Eff, u: Tid)
    requires Base(c) && Control(c, c', t, e) && u in c.th && u != t && c.th[u].pc.Locked()
    ensures c'.sh.sendq == c.sh.sendq && c'.sh.recvq == c.sh.recvq
  {
    hide Prog, Inv, ThreadsOk, QueueOk, OpenOk, Apply, Post, Dutiful;
    ControlFrame(c, c', t, e);
  }

  lemma ControlWatches(c: Chan, c': Chan, t: Tid, e: Eff, r: Tid, u: Tid)
    requires Base(c) && Care(c) && Watch(c, r) && Control(c, c', t, e) && u in c.th && u in c'.th && u in c'.ring.ops
    ensures WatchOk(c'.ring.m, c'.th[u].pc, c'.ring.ops[u], r in c'.sh.recvq)
  {
    hide Base, Care, Control, Post, Dutiful, ValueNoticed, SenderNoticed, QApply, ViewOf, SeesValue, SeesFull;
    ControlFrame(c, c', t, e);
    if u == t {
      BaseCursors(c);
      TakesReceiver(c, t, e, r);
      ArrivesWatching(c.ring.m, t, c.th[t], c.ring.ops[t], ViewOf(c, t), e, r in c.sh.recvq, r in c'.sh.recvq);
    } else if c.th[u].pc.Locked() {
      LockedOut(c, c', t, e, u);
    }
  }

  lemma TakesReceiver(c: Chan, t: Tid, e: Eff, r: Tid)
    requires Base(c) && Care(c) && t in c.th && t in c.ring.ops && c.cons == Some(r)
    requires Post(t, c.th[t], c.ring.ops[t], ViewOf(c, t), e)
    ensures e.rq.Take? ==> c.sh.recvq == [r]
    ensures e.rq.PutBack? ==> RetGot(c.ring.ops[t]) == []
    ensures var v := ViewOf(c, t); v.pt == c.ring.m.pt && v.ch == c.ring.m.ch && v.ph == c.ring.m.ph
  {
    hide Base, Care, RequestOk, OpFits, OwnLedger, WaitMove;
    SoleQueued(c, r);
  }

  lemma ArrivesWatching(m: Mem<Item>, t: Tid, l: Thread, op: Op<Item>, v: View, e: Eff, queued: bool, queued': bool)
    requires Cursors(m) && Post(t, l, op, v, e) && Dutiful(l, op, v, e) && WatchOk(m, l.pc, op, queued)
    requires v.pt == m.pt && v.ch == m.ch && (e.rq.Take? ==> queued)
    ensures WatchOk(m, e.l.pc, e.op, queued')
  {
    hide Lawful, OwnLedger, WaiterLedger, RequestOk, KeepsDuty, Drains;
  }

  lemma BaseCursors(c: Chan)
    requires Base(c)
    ensures Cursors(c.ring.m)
  {
  }

  /** A control step queues the receiver only when the receiver registers itself. */
  lemma StillQueued(c: Chan, c': Chan, t: Tid, e: Eff, r: Tid)
    requires Base(c) && Care(c) && Watch(c, r) && Control(c, c', t, e) && r in c'.sh.recvq
    ensures || (t == r && e.op.CLoadHead? && e.l.pc == RPop2)
            || (r in c.sh.recvq && !e.rq.Take? && (t == r ==> e.rq.Keep?))
  {
    hide Base, Care, Control, Post, Dutiful, ValueNoticed, SenderNoticed, ViewOf;
    ControlFrame(c, c', t, e);
    TakesReceiver(c, t, e, r);
    assert WatchOk(c.ring.m, c.th[t].pc, c.ring.ops[t], r in c.sh.recvq);
    OwnFit(c, t);
    QueuedWait(c);
    Requeues(c.ring.m, t, c.th[t], c.ring.ops[t], ViewOf(c, t), e, r in c.sh.recvq);
  }

  lemma OwnFit(c: Chan, t: Tid)
    requires Base(c) && t in c.th
    ensures t in c.ring.ops && OpFits(c.ring.ops[t], c.th[t], AuthorItems(c.th, t))
  {
    hide OpFits;
  }

  lemma Requeues(m: Mem<Item>, t: Tid, l: Thread, op: Op<Item>, v: View, e: Eff, queued: bool)
    requires Post(t, l, op, v, e) && Dutiful(l, op, v, e) && WatchOk(m, l.pc, op, queued)
    requires l.pc.DPop? ==> op.CRet?
    ensures e.rq.Join? ==> e.op.CLoadHead? && e.l.pc == RPop2
    ensures !e.rq.PutBack?
    ensures RecvWaits(l) ==> e.rq.Keep? || e.rq.Quit?
  {
    hide Numbered, KeepsDuty, OwnLedger;
  }

  /** A receiver stuck after a control step was stuck before it. */
  lemma StillStuck(c: Chan, c': Chan, t: Tid, e: Eff, r: Tid)
    requires Base(c) && Care(c) && Watch(c, r) && Control(c, c', t, e) && Stuck(c', r)
    ensures Stuck(c, r) && !e.rq.Take?
  {
    hide Base, Care, Control, Lawful, OwnLedger, WaiterLedger, KeepsDuty, Drains, ViewOf, WatchOk, ValueNoticed,
         SenderNoticed, RequestOk;
    ControlFrame(c, c', t, e);
    StillQueued(c, c', t, e, r);
    OwnFit(c, t);
    if t == r {
      QueuedWait(c);
      assert RecvWaits(e.l) by { KeepsWaiting(t, c.th[t], c.ring.ops[t], ViewOf(c, t), e); }
    }
  }

  lemma KeepsWaiting(t: Tid, l: Thread, op: Op<Item>, v: View, e: Eff)
    requires Post(t, l, op, v, e) && e.rq.Keep?
    ensures RecvWaits(e.l) == RecvWaits(l)
  {
    hide Shape, OwnLedger, WaiterLedger;
  }

  lemma ControlNotices(c: Chan, c': Chan, t: Tid, e: Eff, r: Tid)
    requires Base(c) && Care(c) && Watch(c, r) && Control(c, c', t, e)
    ensures ValueNoticed(c', r)
  {
    hide Base, Care, Control, Post, Arrives, Drains, WatchOk, SenderNoticed, QApply, OwesReceiver, Stuck;
    ControlFrame(c, c', t, e);
    if Stuck(c', r) && c'.ring.m.ch < c'.ring.m.pt {
      StillStuck(c, c', t, e, r);
      var p :| Owed(c, p);
      assert r in c.sh.recvq by { StuckQueued(c, r); }
      SoleQueued(c, r);
      assert Owed(c', p);
    }
  }

  lemma StuckQueued(c: Chan, r: Tid)
    requires Stuck(c, r)
    ensures r in c.sh.recvq
  {
  }

  /** How a thread falls asleep. */
  lemma FallsAsleep(l: Thread, op: Op<Item>, v: View, e: Eff)
    requires Dutiful(l, op, v, e)
    ensures Asleep(e.l) ==> e.sq.Keep? && (Asleep(l) || (l.pc == SPush2 && op.PRet? && op.sent == []))
    ensures Dozing(e.l) ==> e.rq.Keep? && (Dozing(l) || (l.pc == RPop2 && e.sq.Keep?))
  {
    hide KeepsDuty, Drains;
  }

  /** A receiver dozing after a control step was dozing before, or no sender is queued. */
  lemma StillDozing(c: Chan, c': Chan, t: Tid, e: Eff, r: Tid)
    requires Base(c) && Care(c) && Watch(c, r) && Control(c, c', t, e)
    requires r in c'.sh.recvq && r in c'.th && Dozing(c'.th[r])
    ensures r in c.sh.recvq && r in c.th && (Dozing(c.th[r]) || c'.sh.sendq == [])
  {
    hide Base, SendRegs, RecvRegs, RoleOk, Control, Post, Dutiful, WatchOk, ValueNoticed, SenderNoticed, ViewOf;
    ControlFrame(c, c', t, e);
    StillQueued(c, c', t, e, r);
    FallsAsleep(c.th[t], c.ring.ops[t], ViewOf(c, t), e);
  }

  /** With the receiver queued, a sender is queued only by registering itself. */
  lemma SenderStillQueued(c: Chan, c': Chan, t: Tid, e: Eff, r: Tid, s: Tid)
    requires Base(c) && Care(c) && c.cons == Some(r) && Control(c, c', t, e) && r in c.sh.recvq && s in c'.sh.sendq
    ensures s in c.sh.sendq || (s == t && !e.sq.Keep?)
  {
    hide Base, Drained, SendRegs, RecvRegs, Control, OwnLedger, WaiterLedger, Shape, Dutiful, ViewOf, WaitMove,
         Without, Distinct;
    ControlFrame(c, c', t, e);
    QueuedWait(c);
    assert RoleOk(c, t);
  }

  lemma ControlSenders(c: Chan, c': Chan, t: Tid, e: Eff, r: Tid)
    requires Base(c) && Care(c) && Watch(c, r) && Control(c, c', t, e)
    ensures SenderNoticed(c', r)
  {
    hide Base, Care, Control, Post, Dutiful, ValueNoticed, ViewOf;
    ControlFrame(c, c', t, e);
    forall s | r in c'.sh.recvq && r in c'.th && Dozing(c'.th[r]) && s in c'.sh.sendq && s in c'.th && Asleep(c'.th[s])
      ensures c'.ring.m.ch < c'.ring.m.ph
    {
      StillDozing(c, c', t, e, r);
      SenderStillQueued(c, c', t, e, r, s);
      FallsAsleep(c.th[t], c.ring.ops[t], ViewOf(c, t), e);
      assert WatchOk(c.ring.m, c.th[t].pc, c.ring.ops[t], r in c.sh.recvq);
    }
  }

  lemma ControlKeepsWatch(c: Chan, c': Chan, t: Tid, e: Eff, r: Tid)
    requires Base(c) && Care(c) && Watch(c, r) && Control(c, c', t, e)
    ensures Watch(c', r)
  {
    hide Base, Care, Control, Post, Dutiful, ValueNoticed, SenderNoticed, ViewOf, WatchOk, QApply;
    ControlFrame(c, c', t, e);
    ControlNotices(c, c', t, e, r);
    ControlSenders(c, c', t, e, r);
    forall u <- c'.th ensures WatchOk(c'.ring.m, c'.th[u].pc, c'.ring.ops[u], r in c'.sh.recvq) {
      ControlWatches(c, c', t, e, r, u);
    }
  }

  lemma {:induction false} RunWatch(run: seq<Chan>, i: nat, r: Tid)
    requires Channel.Run(run) && i < |run| && run[0].cons == Some(r)
    ensures Watch(run[i], r)
  {
    hide Base, Care, Watch, RingStep, Control;
    if i == 0 {
      InitWatch(run[0], r);
    } else {
      RunWatch(run, i - 1, r);
      RunBase(run, i - 1);
      RunCare(run, i - 1);
      var c, c' := run[i - 1], run[i];
      assert Channel.Next(c, c');
      var t: Tid :| StepBy(c, c', t);
      if RingStep(c, c', t) {
        RingStepKeepsWatch(c, c', t, r);
      } else {
        var e :| Control(c, c', t, e);
        ControlKeepsWatch(c, c', t, e, r);
      }
    }
  }

  lemma InitWatch(c: Chan, r: Tid)
    requires Init(c) && c.cons == Some(r)
    ensures Watch(c, r)
  {
  }

  // --------------------------------------------------------------- theorem

  /** Thread p is on its way to noticing the receiver: it owes a look, or it
      has reserved an index it has not committed yet. */
  ghost predicate InFlight(c: Chan, p: Tid) {
    Owed(c, p) || (p in c.ring.ops && c.ring.ops[p].PWrite?)
  }

  /** No lost wakeup: while the only receiver sleeps unserved although a value
      is committed or a sender sleeps too, some other thread is in flight. */
  lemma NoLostReceiverWakeup(run: seq<Chan>, i: nat, r: Tid)
    requires Channel.Run(run) && i < |run| && run[0].cons == Some(r)
    requires var c := run[i]; r in c.sh.recvq && r in c.th && Dozing(c.th[r])
    requires var c := run[i]; c.ring.m.ch < c.ring.m.pt || exists s :: s in c.sh.sendq && s in c.th && Asleep(c.th[s])
    ensures exists p :: p != r && InFlight(run[i], p)
  {
    hide Channel.Run, Care;
    var c := run[i];
    RunBase(run, i);
    RunWatch(run, i, r);
    Noticed(c, r);
  }

  lemma Noticed(c: Chan, r: Tid)
    requires Base(c) && Watch(c, r) && r in c.sh.recvq && r in c.th && Dozing(c.th[r])
    requires c.ring.m.ch < c.ring.m.pt || exists s :: s in c.sh.sendq && s in c.th && Asleep(c.th[s])
    ensures exists p :: p != r && InFlight(c, p)
  {
    hide QueueOk, LockOk, OpenOk, RequestOk, AllOk, AllStored, PushFits, PopFits, WatchOk, Stuck;
    DozingStuck(c, r);
    if c.ring.m.ch < c.ring.m.pt {
      var p :| Owed(c, p);
      assert InFlight(c, p);
    } else {
      var p := c.ring.m.powner[c.ring.m.pt];
      assert PHolds(c.ring.ops, p, c.ring.m.pt) && OpFits(c.ring.ops[r], c.th[r], AuthorItems(c.th, r));
      assert InFlight(c, p);
    }
  }

  /** A thread that owes the stuck receiver a look comes nearer with every step
      it takes, until it takes the receiver out of the queue. */
  lemma DutyAdvances(c: Chan, c': Chan, t: Tid, e: Eff, r: Tid)
    requires Base(c) && Care(c) && c.cons == Some(r) && Control(c, c', t, e)
    requires Stuck(c, r) && c.ring.m.ch < c.ring.m.pt && Owed(c, t)
    ensures || c'.sh.recvq == []
            || (Owed(c', t) && Distance(c'.th[t].pc, |c'.sh.sendq|) < Distance(c.th[t].pc, |c.sh.sendq|))
  {
    hide Base, Care, Control, Shape, OwnLedger, WaiterLedger, Drains, WaitMove, RequestOk, Without;
    ControlFrame(c, c', t, e);
    SoleQueued(c, r);
    ShrinksBySteps(c.th[t].pc, e.l.pc, c.sh.sendq, e.sq, t);
  }

  lemma ShrinksBySteps(pc: Pc, pc': Pc, q: seq<Tid>, op: QOp, t: Tid)
    ensures QueueMove(op, q, t, SendHand(pc), SendHand(pc')) && (op.WakeHead? || pc' != KSend) ==>
      Distance(pc', |QApply(op, q, t, SendHand(pc))|) <= Distance(pc', |q| - Bit(op.WakeHead?))
  {
  }

  /** The pop of a sender that has taken the receiver out of the queue never comes back empty. */
  lemma HandoverSucceeds(run: seq<Chan>, i: nat, r: Tid, h: Tid)
    requires Channel.Run(run) && i < |run| && run[0].cons == Some(r)
    requires h in run[i].th && run[i].th[h].pc.DPop? && h in run[i].ring.ops && run[i].ring.ops[h].CRet?
    ensures run[i].ring.ops[h].got != []
  {
    hide Channel.Run, ValueNoticed, SenderNoticed;
    RunWatch(run, i, r);
    assert WatchOk(run[i].ring.m, run[i].th[h].pc, run[i].ring.ops[h], r in run[i].sh.recvq);
  }
}
