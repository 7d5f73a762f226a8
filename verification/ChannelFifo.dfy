/** Per-producer order: one thread's values leave the channel in the order it
    sent them, through the ring or past it, pushed by itself or by others. */
module ChannelFifo {
  import opened Results
  import opened Ring
  import opened Channel
  import opened ChannelBase
  import opened ChannelInv
  import opened ChannelLedger

  /** Values of one producer appear in increasing serial order. */
  ghost predicate InOrder(line: seq<Item>) {
    forall i, j :: 0 <= i < j < |line| && line[i].producer == line[j].producer ==> line[i].serial < line[j].serial
  }

  /** What has left, followed by what is still in the ring. */
  ghost function Line(c: Chan): seq<Item>
    requires c.ring.m.ch <= |c.ring.m.hist|
  {
    ItemsOf(c.log.left) + c.ring.m.hist[c.ring.m.ch..]
  }

  /** Uncommitted values belong to whoever the thread in flight pushes for. */
  ghost predicate Attributed(c: Chan)
    requires Cursors(c.ring.m)
  {
    forall i :: c.ring.m.pt <= i < c.ring.m.ph ==>
      var o := c.ring.m.powner[i]; o in c.th && c.ring.m.hist[i].producer == Author(c.th[o].pc, o)
  }

  /** The receiver that found the ring empty under the lock. */
  ghost predicate FoundEmpty(c: Chan, t: Tid) {
    t in c.th && t in c.ring.ops && c.th[t].pc == RPop1 && c.ring.ops[t].CRet? && c.ring.ops[t].got == []
  }

  /** No queued sender then has a value left in the ring. */
  ghost predicate Drained(c: Chan)
    requires Cursors(c.ring.m)
  {
    forall t, s, i :: FoundEmpty(c, t) && s in c.sh.sendq && c.ring.m.ch <= i < c.ring.m.ph ==>
      c.ring.m.hist[i].producer != s
  }

  ghost predicate Fifo(c: Chan) {
    Cursors(c.ring.m) && InOrder(Line(c)) && Attributed(c) && Drained(c)
  }

  // ------------------------------------------------------------ ring steps

  /** Everything in line has been accepted. */
  lemma LineAccepted(c: Chan, x: Item)
    requires Ledger(c) && x in Line(c)
    ensures x in c.log.acc
  {
    hide AccOk, LeftOk, SendHonest, RecvHonest;
    assert x in multiset(ItemsOf(c.log.left)) + multiset(c.ring.m.hist[c.ring.m.ch..]);
    assert x in multiset(c.log.acc);
  }

  lemma RingStepKeepsOrder(c: Chan, c': Chan, t: Tid)
    requires Base(c) && Ledger(c) && RingStep(c, c', t) && Fifo(c)
    ensures Cursors(c'.ring.m) && InOrder(Line(c'))
  {
    hide Base, RingStep, StepSent, StepGot, Leaves, ItemsOf, Attributed, Drained, Ledger, InOrder;
    RingStepLogs(c, c', t);
    var m, m', sent, got, to := c.ring.m, c'.ring.m, StepSent(c, c', t), StepGot(c, c', t), ServedBy(c.th[t].pc, t);
    LeftItems(c.log.left, got, to, c.th[to].rid);
    assert m'.hist[m'.ch..] == m.hist[m'.ch..] + sent;
    assert Line(c') == Line(c) + sent;
    if sent == [] {
      assert Line(c') == Line(c);
    } else {
      SentAfterLine(c, c', t);
      AppendInOrder(Line(c), sent);
    }
  }

  lemma AppendInOrder(line: seq<Item>, sent: seq<Item>)
    requires InOrder(line) && InOrder(sent)
    requires forall x, y :: x in line && y in sent && x.producer == y.producer ==> x.serial < y.serial
    ensures InOrder(line + sent)
  {
  }

  lemma SentAfterLine(c: Chan, c': Chan, t: Tid)
    requires Base(c) && Ledger(c) && RingStep(c, c', t) && t in c.ring.ops
    requires t in c'.ring.ops && StepSent(c, c', t) != []
    ensures InOrder(StepSent(c, c', t))
    ensures forall x, y :: x in Line(c) && y in StepSent(c, c', t) && x.producer == y.producer ==> x.serial < y.serial
  {
    hide Base, RingStep, StepSent, LeftOk, SendHonest, RecvHonest, MovedBy, Line, PlaceOk;
    StepSentIsNew(c, c', t);
    var a, sent := Author(c.th[t].pc, t), StepSent(c, c', t);
    forall x, y | x in Line(c) && y in sent && x.producer == y.producer ensures x.serial < y.serial {
      LineAccepted(c, x);
      assert y in c.th[a].items;
    }
  }

  lemma RingStepKeepsAttribution(c: Chan, c': Chan, t: Tid)
    requires Base(c) && RingStep(c, c', t) && Fifo(c)
    ensures Cursors(c'.ring.m) && Attributed(c')
  {
    hide Inv, ThreadsOk, QueueOk, LockOk, OpenOk, OpStep, InOrder, Drained, Covered, AllStored, PlaceOk;
    RingStepLogs(c, c', t);
    var m, m' := c.ring.m, c'.ring.m;
    InvOp(c.ring, t);
    StepEffect(m, c.ring.ops[t], m', c'.ring.ops[t], t);
    if StepSent(c, c', t) != [] {
      StepSentIsNew(c, c', t);
      forall i | m.ph <= i < m'.ph ensures m'.hist[i].producer == Author(c.th[t].pc, t) {
        assert m'.hist[i] in StepSent(c, c', t);
      }
    }
  }

  /** While h holds the lock with nobody in hand, no push in flight is for a queued sender. */
  lemma PushesForOthers(c: Chan, h: Tid, o: Tid, s: Tid)
    requires Base(c) && h in c.th && c.th[h].pc == RPop1 && o in c.th && s in c.sh.sendq
    requires o in c.ring.ops && !c.ring.ops[o].Idle?
    ensures Author(c.th[o].pc, o) != s
  {
    hide Inv, OpenOk, QueueOk, RequestOk, PushFits, PopFits;
    QueuedWait(c);
    HandAsleep(c, o);
    HandAsleep(c, h);
    assert OpFits(c.ring.ops[o], c.th[o], AuthorItems(c.th, o));
  }

  lemma RingStepKeepsDrained(c: Chan, c': Chan, t: Tid)
    requires Base(c) && RingStep(c, c', t) && Fifo(c)
    ensures Cursors(c'.ring.m) && Drained(c')
  {
    hide Inv, Base, OpStep, InOrder, Line;
    RingStepLogs(c, c', t);
    RingStepKeepsAttribution(c, c', t);
    var m, m' := c.ring.m, c'.ring.m;
    forall h, s, i | FoundEmpty(c', h) && s in c'.sh.sendq && m'.ch <= i < m'.ph ensures m'.hist[i].producer != s {
      if h == t { FoundEmptyNow(c, c', t); }
      if h == t || i >= m.ph {
        var o := m'.powner[i];
        OwnerInFlight(c, c', t, i);
        PushesForOthers(c, h, o, s);
      } else {
        assert FoundEmpty(c, h);
      }
    }
  }

  lemma FoundEmptyNow(c: Chan, c': Chan, t: Tid)
    requires Base(c) && RingStep(c, c', t) && FoundEmpty(c', t)
    ensures c'.ring.m == c.ring.m && c.ring.m.ch == c.ring.m.pt
  {
    hide Base, AllStored, Owns, Slice, Room, ReserveC, ReserveP;
    assert Inv(c.ring) by { assert Base(c); BaseInv(c); }
    InvOp(c.ring, t);
  }

  lemma BaseInv(c: Chan)
    requires Base(c)
    ensures Inv(c.ring)
  {
  }

  /** An uncommitted index after the step was being pushed before it. */
  lemma OwnerInFlight(c: Chan, c': Chan, t: Tid, i: nat)
    requires Base(c) && RingStep(c, c', t) && Cursors(c'.ring.m) && c'.ring.m.pt <= i < c'.ring.m.ph
    ensures var o := c'.ring.m.powner[i]; o in c.th && o in c.ring.ops && !c.ring.ops[o].Idle?
  {
    hide OpStep, AllStored, OpOk, QueueOk, LockOk, OpenOk, RequestOk, OpFits;
    StepKeepsInv(c.ring, c'.ring, t);
    assert PHolds(c'.ring.ops, c'.ring.m.powner[i], i);
    assert !c.ring.ops[t].Idle? by { StepStarted(c.ring.m, c.ring.ops[t], c'.ring.m, c'.ring.ops[t], t); }
  }

  lemma StepStarted(m: Mem<Item>, op: Op<Item>, m': Mem<Item>, op': Op<Item>, t: Tid)
    requires OpStep(m, op, m', op', t)
    ensures !op.Returned()
  {
  }

  // --------------------------------------------------------- program steps

  /** The ring is untouched and t had nothing in flight. */
  lemma ControlKeepsAttribution(c: Chan, c': Chan, t: Tid, e: Eff)
    requires Base(c) && Control(c, c', t, e) && Fifo(c)
    ensures Cursors(c'.ring.m) && Attributed(c')
  {
    hide Prog, ViewOf, Lawful, Shape, OwnLedger, WaiterLedger, OpOk, ThreadsOk, QueueOk, LockOk, OpenOk, InOrder,
         Drained, AllStored, Record, QApply, LockAfter, Wake;
    ControlPost(c, c', t, e);
    ServedAsleep(c, t, e);
    var m := c.ring.m;
    forall i | m.pt <= i < m.ph
      ensures var o := m.powner[i]; o in c'.th && m.hist[i].producer == Author(c'.th[o].pc, o)
    {
      assert PHolds(c.ring.ops, m.powner[i], i);
    }
  }

  /** The queue of senders stays put while somebody who found the ring empty holds the lock. */
  lemma ControlKeepsDrained(c: Chan, c': Chan, t: Tid, e: Eff)
    requires Base(c) && Control(c, c', t, e) && Fifo(c)
    ensures Cursors(c'.ring.m) && Drained(c')
  {
    hide Prog, OwnLedger, WaiterLedger, Inv, ThreadsOk, QueueOk, OpenOk, InOrder, Attributed, Record, Wake, Shape,
         WaitMove, OpOk;
    ControlPost(c, c', t, e);
    ServedAsleep(c, t, e);
    forall h, s, i | FoundEmpty(c', h) && s in c'.sh.sendq && c.ring.m.ch <= i < c.ring.m.ph
      ensures c.ring.m.hist[i].producer != s
    {
      assert h != t by { assert e.op.Fresh() by { ShapeFresh(t, ViewOf(c, t), e); } }
      assert FoundEmpty(c, h);
      assert c.sh.lock == Some(h);
      HandAsleep(c, t);
    }
  }

  lemma PostLedger(t: Tid, l: Thread, op: Op<Item>, v: View, e: Eff)
    requires Post(t, l, op, v, e)
    ensures OwnLedger(l, op, e)
  {
  }

  lemma ShapeFresh(t: Tid, v: View, e: Eff)
    requires Shape(t, v, e)
    ensures e.op.Fresh()
  {
  }

  lemma ControlKeepsOrder(c: Chan, c': Chan, t: Tid, e: Eff)
    requires Base(c) && Ledger(c) && Control(c, c', t, e) && Fifo(c)
    ensures Cursors(c'.ring.m) && InOrder(Line(c'))
  {
    hide Base, Prog, Post, Attributed, Ledger, Leaves, ItemsOf, FreshFor, SerialsGrow, InOrder, Record, Wake, QApply,
         ViewOf;
    ControlPost(c, c', t, e);
    ControlLogs(c, t, e);
    LeftItems(c.log.left, Handed(e), t, c.th[t].rid);
    if e.direct {
      HandoffOrder(c, t, e);
      InsertInOrder(ItemsOf(c.log.left), e.got[0], c.ring.m.hist[c.ring.m.ch..]);
      assert [e.got[0]] == e.got;
      assert Line(c') == ItemsOf(c.log.left) + [e.got[0]] + c.ring.m.hist[c.ring.m.ch..];
    } else {
      assert ItemsOf(c.log.left) + [] == ItemsOf(c.log.left);
      assert Line(c') == Line(c);
    }
  }

  lemma InsertInOrder(left: seq<Item>, x: Item, rest: seq<Item>)
    requires InOrder(left + rest)
    requires forall y :: y in left && y.producer == x.producer ==> y.serial < x.serial
    requires forall y :: y in rest ==> y.producer != x.producer
    ensures InOrder(left + [x] + rest)
  {
    var before, line := left + rest, left + [x] + rest;
    assert forall j :: |left| < j < |line| ==> line[j] == rest[j - |left| - 1];
    forall i, j | 0 <= i < j < |line| && line[i].producer == line[j].producer ensures line[i].serial < line[j].serial {
      var i', j' := if i < |left| then i else i - 1, if j < |left| then j else j - 1;
      if j == |left| {
        assert line[i] == left[i];
      } else if i != |left| {
        assert line[i] == before[i'] && line[j] == before[j'];
      }
    }
  }

  /** A value handed over directly is younger than all its producer's values in line. */
  lemma HandoffOrder(c: Chan, t: Tid, e: Eff)
    requires Base(c) && Ledger(c) && Fifo(c) && t in c.th && t in c.ring.ops
    requires Post(t, c.th[t], c.ring.ops[t], ViewOf(c, t), e) && e.direct
    ensures |e.got| == 1
    ensures forall y :: y in ItemsOf(c.log.left) && y.producer == e.got[0].producer ==> y.serial < e.got[0].serial
    ensures forall y :: y in c.ring.m.hist[c.ring.m.ch..] ==> y.producer != e.got[0].producer
  {
    hide Inv, QueueOk, LockOk, OpenOk, OpFits, PlaceOk, Post, InOrder, Attributed, SendHonest, RecvHonest, LeftOk,
         MovedBy, Accepted;
    ControlLogs(c, t, e);
    DirectUnaccepted(c, t, e);
    assert FoundEmpty(c, t) by {
      assert OwnLedger(c.th[t], c.ring.ops[t], e) by { PostLedger(t, c.th[t], c.ring.ops[t], ViewOf(c, t), e); }
    }
    var s := c.sh.sendq[0];
    assert RequestOk(c.th[s], s);
    forall y | y in ItemsOf(c.log.left) && y.producer == s ensures y.serial < e.got[0].serial {
      assert y in Line(c);
      LineAccepted(c, y);
    }
    forall y | y in c.ring.m.hist[c.ring.m.ch..] ensures y.producer != s {
      var i :| 0 <= i < |c.ring.m.hist[c.ring.m.ch..]| && c.ring.m.hist[c.ring.m.ch..][i] == y;
      assert c.ring.m.hist[c.ring.m.ch + i] == y && s in c.sh.sendq;
    }
  }

  // ------------------------------------------------------------ executions

  lemma InitFifo(c: Chan)
    requires Init(c)
    ensures Fifo(c)
  {
  }

  lemma StepKeepsFifo(c: Chan, c': Chan, t: Tid)
    requires Base(c) && Ledger(c) && StepBy(c, c', t) && Fifo(c)
    ensures Fifo(c')
  {
    hide Base, Ledger, RingStep, Control, InOrder, Attributed, Drained, Line;
    if RingStep(c, c', t) {
      RingStepKeepsOrder(c, c', t);
      RingStepKeepsAttribution(c, c', t);
      RingStepKeepsDrained(c, c', t);
    } else {
      var e :| Control(c, c', t, e);
      ControlKeepsOrder(c, c', t, e);
      ControlKeepsAttribution(c, c', t, e);
      ControlKeepsDrained(c, c', t, e);
    }
  }

  lemma {:induction false} RunFifo(run: seq<Chan>, i: nat)
    requires Channel.Run(run) && i < |run|
    ensures Fifo(run[i])
  {
    hide Init, Base, Ledger, Fifo, StepBy;
    if i == 0 {
      InitFifo(run[0]);
    } else {
      RunFifo(run, i - 1);
      RunLedger(run, i - 1);
      RunBase(run, i - 1);
      assert Channel.Next(run[i - 1], run[i]);
      var t: Tid :| StepBy(run[i - 1], run[i], t);
      StepKeepsFifo(run[i - 1], run[i], t);
    }
  }
}
