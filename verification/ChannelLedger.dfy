/** Conservation: every value is accounted for, and every completed request
    reports exactly what it moved. */
module ChannelLedger {
  import opened Results
  import opened Ring
  import opened Channel
  import opened ChannelBase
  import opened ChannelInv

  // -------------------------------------------------------------- accounts

  /** Values a ring pop has reserved so far. */
  function OpGot(op: Op<Item>, hist: seq<Item>): seq<Item> {
    match op
    case CRead(lo, k, _) => if lo + k <= |hist| then hist[lo..lo + k] else []
    case CRet(_, got) => got
    case _ => []
  }

  function HolderOp(c: Chan): Op<Item> {
    if c.sh.lock.Some? && c.sh.lock.value in c.ring.ops then c.ring.ops[c.sh.lock.value] else Op.Idle
  }

  /** How many values of u's current send request the channel has accepted,
      pushed by u itself or by the lock holder on its behalf. */
  ghost function MovedBy(c: Chan, u: Tid): nat
    requires u in c.th && u in c.ring.ops
  {
    if SendHand(HolderPc(c.sh, c.th)) == Some(u) then |OpSent(HolderOp(c))| else Moved(c.th[u], c.ring.ops[u])
  }

  /** The values that have left the channel for u's current receive request. */
  ghost function KeptBy(c: Chan, u: Tid): seq<Item>
    requires u in c.th && u in c.ring.ops
  {
    if RecvHand(HolderPc(c.sh, c.th)) == Some(u) then OpGot(HolderOp(c), c.ring.m.hist)
    else Kept(c.th[u], OpGot(c.ring.ops[u], c.ring.m.hist))
  }

  /** The values in `left` that went to one receive request, in order. */
  ghost function To(left: seq<Leave>, to: Tid, rid: nat): seq<Item> {
    if left == [] then []
    else
      var e := left[|left| - 1];
      To(left[..|left| - 1], to, rid) + if e.to == to && e.rid == rid then [e.item] else []
  }

  /** Two requests of the same thread never share a value, so these pin down acceptance. */
  ghost predicate Accepted(acc: seq<Item>, items: seq<Item>, k: nat) {
    forall j :: 0 <= j < |items| ==> (items[j] in acc <==> j < k)
  }

  ghost predicate AccOk(c: Chan)
    requires c.ring.ops.Keys == c.th.Keys
  {
    && (forall i, j :: 0 <= i < j < |c.log.acc| ==> c.log.acc[i] != c.log.acc[j])
    && (forall x :: x in c.log.acc ==>
          x.producer in c.th && x.serial < c.th[x.producer].serial + MovedBy(c, x.producer))
    && (forall u <- c.th :: Accepted(c.log.acc, c.th[u].items, MovedBy(c, u)))
  }

  ghost predicate LeftOk(c: Chan)
    requires c.ring.ops.Keys == c.th.Keys
  {
    && (forall e :: e in c.log.left ==> e.to in c.th && e.rid <= c.th[e.to].rid)
    && (forall u <- c.th :: To(c.log.left, u, c.th[u].rid) == KeptBy(c, u))
  }

  ghost function ItemsOf(left: seq<Leave>): (r: seq<Item>)
    ensures |r| == |left| && forall i :: 0 <= i < |r| ==> r[i] == left[i].item
  {
    seq(|left|, i requires 0 <= i < |left| => left[i].item)
  }

  /** A completed send returned OK exactly when it moved something, and what it
      moved is exactly the prefix the channel accepted; begun after close, nothing. */
  ghost predicate SendHonest(acc: seq<Item>, th: map<Tid, Thread>, r: SendRec) {
    && r.sent <= |r.items| && (r.res == Ok <==> r.sent > 0) && Accepted(acc, r.items, r.sent)
    && (r.late ==> r.sent == 0 && r.res != Timeout)
    && (forall x :: x in r.items ==> x.producer in th && x.serial < th[x.producer].serial)
  }

  /** A completed receive returned OK exactly when it got something, and got
      exactly the values that left the channel for it. */
  ghost predicate RecvHonest(left: seq<Leave>, th: map<Tid, Thread>, r: RecvRec) {
    && r.to in th && r.rid < th[r.to].rid
    && r.got == To(left, r.to, r.rid) && (r.res == Ok <==> r.got != [])
  }

  ghost predicate Ledger(c: Chan) {
    && c.ring.ops.Keys == c.th.Keys && c.ring.m.ch <= |c.ring.m.hist|
    && AccOk(c) && LeftOk(c)
    && (forall r :: r in c.log.sends ==> SendHonest(c.log.acc, c.th, r))
    && (forall r :: r in c.log.recvs ==> RecvHonest(c.log.left, c.th, r))
    && multiset(c.log.acc) == multiset(ItemsOf(c.log.left)) + multiset(c.ring.m.hist[c.ring.m.ch..])
  }

  // ---------------------------------------------------- facts about `To`

  lemma {:induction false} ToAppend(left: seq<Leave>, items: seq<Item>, to: Tid, rid: nat, u: Tid, n: nat)
    ensures To(left + Leaves(items, to, rid), u, n) == To(left, u, n) + if u == to && n == rid then items else []
  {
    if items == [] {
      assert left + Leaves(items, to, rid) == left;
    } else {
      var k := |items| - 1;
      ToAppend(left, items[..k], to, rid, u, n);
      var all := left + Leaves(items, to, rid);
      assert all[..|all| - 1] == left + Leaves(items[..k], to, rid);
      assert items == items[..k] + [items[k]];
    }
  }

  lemma {:induction false} ToNone(left: seq<Leave>, u: Tid, n: nat)
    requires forall e :: e in left ==> e.to == u ==> e.rid != n
    ensures To(left, u, n) == []
  {
    if left != [] { ToNone(left[..|left| - 1], u, n); }
  }

  // ------------------------------------------------------- program steps

  /** Whose hands and whose ring operation count, before and after t's step. */
  lemma HandsMove(c: Chan, t: Tid, e: Eff)
    requires Base(c) && t in c.th && Lawful(t, c.th[t], ViewOf(c, t), e)
    ensures var c', l := Apply(c, t, e), c.th[t];
      if l.pc.Locked() || c.sh.lock == None then
        && SendHand(HolderPc(c.sh, c.th)) == SendHand(l.pc) && SendHand(HolderPc(c'.sh, c'.th)) == SendHand(e.l.pc)
        && RecvHand(HolderPc(c.sh, c.th)) == RecvHand(l.pc) && RecvHand(HolderPc(c'.sh, c'.th)) == RecvHand(e.l.pc)
        && (SendHand(l.pc).Some? || RecvHand(l.pc).Some? ==> t in c.ring.ops && HolderOp(c) == c.ring.ops[t])
        && (SendHand(e.l.pc).Some? || RecvHand(e.l.pc).Some? ==> HolderOp(c') == e.op)
      else
        && HolderPc(c'.sh, c'.th) == HolderPc(c.sh, c.th) && HolderOp(c') == HolderOp(c)
        && SendHand(l.pc) == SendHand(e.l.pc) == None && RecvHand(l.pc) == RecvHand(e.l.pc) == None
        && e.sq.Keep? && e.rq.Keep?
  {
    hide Inv, RequestOk, QueueOk, OpFits, Record, QApply, Wake, WaitMove, QueueMove, OpenOk, HolderOp, SendHand,
         RecvHand, LockOk;
    ServedAsleep(c, t, e);
    HolderMoves(c.sh, c.th, Apply(c, t, e).th, t, Apply(c, t, e).sh.lock);
    HolderOpMoves(c, t, e);
  }

  lemma HolderOpMoves(c: Chan, t: Tid, e: Eff)
    requires Base(c) && t in c.th && Lawful(t, c.th[t], ViewOf(c, t), e)
    ensures var c', l := Apply(c, t, e), c.th[t];
      if l.pc.Locked() || c.sh.lock == None then
        && (SendHand(l.pc).Some? || RecvHand(l.pc).Some? ==> t in c.ring.ops && HolderOp(c) == c.ring.ops[t])
        && (SendHand(e.l.pc).Some? || RecvHand(e.l.pc).Some? ==> HolderOp(c') == e.op)
      else
        HolderOp(c') == HolderOp(c)
  {
    hide Inv, RequestOk, QueueOk, OpFits, Record, QApply, Wake, WaitMove, QueueMove, OpenOk;
    HandAsleep(c, t);
  }

  lemma MovedServed(c: Chan, t: Tid, e: Eff, u: Tid)
    requires Base(c) && t in c.th && t in c.ring.ops && Post(t, c.th[t], c.ring.ops[t], ViewOf(c, t), e)
    requires u in c.th && u in c.ring.ops && (SendServed(c, t, e) == Some(u) || RecvServed(c, t, e) == Some(u))
    ensures var c' := Apply(c, t, e);
      u in c'.th && u in c'.ring.ops && u != t
      && MovedBy(c', u) == MovedBy(c, u) + Bit(e.direct && SendServed(c, t, e) == Some(u))
      && (RecvServed(c, t, e) == Some(u) ==> KeptBy(c', u) == KeptBy(c, u))
  {
    hide Inv, RequestOk, QueueOk, OpFits, Record, QApply, Wake, ThreadsOk, OpenOk, LockOk, HolderPc, HolderOp,
         OwnLedger;
    ServedAsleep(c, t, e);
    HandsMove(c, t, e);
    HandWaits(c);
    ServedResult(c, t, e, u);
  }

  /** How a program step changes what the channel has accepted of each request,
      and what has left it for each request. */
  lemma MovedOwn(c: Chan, t: Tid, e: Eff)
    requires Base(c) && t in c.th && t in c.ring.ops && Post(t, c.th[t], c.ring.ops[t], ViewOf(c, t), e)
    ensures var c' := Apply(c, t, e);
      t in c'.th && t in c'.ring.ops
      && MovedBy(c', t) == (if e.note.Sent? then 0 else MovedBy(c, t))
      && (e.note.Sent? ==> e.note.k == MovedBy(c, t))
  {
    hide Inv, RequestOk, QueueOk, OpFits, Record, QApply, Wake, ThreadsOk, OpenOk, LockOk, HolderPc, HolderOp,
         WaiterLedger;
    HandsMove(c, t, e);
    HandWaits(c);
    HandAsleep(c, t);
  }

  lemma KeptOwn(c: Chan, t: Tid, e: Eff)
    requires Base(c) && t in c.th && t in c.ring.ops && Post(t, c.th[t], c.ring.ops[t], ViewOf(c, t), e)
    ensures var c' := Apply(c, t, e);
      t in c'.th && t in c'.ring.ops && c'.th[t] == e.l
      && KeptBy(c', t) == (if e.note.Received? then [] else KeptBy(c, t))
      && (e.note.Received? ==> e.note.got == KeptBy(c, t) + if e.direct then e.got else [])
  {
    hide Inv, RequestOk, QueueOk, OpFits, Record, QApply, Wake, ThreadsOk, OpenOk, LockOk, HolderPc, HolderOp,
         WaiterLedger;
    HandsMove(c, t, e);
    HandWaits(c);
    HandAsleep(c, t);
  }

  lemma OthersSame(c: Chan, t: Tid, e: Eff, u: Tid)
    requires Base(c) && t in c.th && t in c.ring.ops && Post(t, c.th[t], c.ring.ops[t], ViewOf(c, t), e)
    requires u in c.th && u in c.ring.ops && u != t && SendServed(c, t, e) != Some(u) && RecvServed(c, t, e) != Some(u)
    ensures var c' := Apply(c, t, e);
      u in c'.th && u in c'.ring.ops && c'.th[u] == c.th[u]
      && MovedBy(c', u) == MovedBy(c, u) && KeptBy(c', u) == KeptBy(c, u)
  {
    hide Inv, RequestOk, QueueOk, OpFits, Record, QApply, Wake, ThreadsOk, OpenOk, LockOk, HolderPc, HolderOp,
         OwnLedger;
    ServedAsleep(c, t, e);
    HandsMove(c, t, e);
    HandAsleep(c, t);
    TakenAsleep(c, t, e);
  }

  /** A waiter dequeued into t's hands has not moved anything yet. */
  lemma TakenAsleep(c: Chan, t: Tid, e: Eff)
    requires Base(c) && t in c.th && Lawful(t, c.th[t], ViewOf(c, t), e)
    ensures e.sq.Take? ==> c.sh.sendq[0] in c.th && Asleep(c.th[c.sh.sendq[0]]) && c.th[c.sh.sendq[0]].res == None
    ensures e.rq.Take? ==> c.sh.recvq[0] in c.th && Dozing(c.th[c.sh.recvq[0]]) && c.th[c.sh.recvq[0]].res == None
  {
    hide Inv, RequestOk, QueueOk, OpFits, ThreadsOk, OpenOk, LockOk;
    if e.sq.Take? { assert c.sh.sendq[0] in c.sh.sendq; }
    if e.rq.Take? { assert c.sh.recvq[0] in c.sh.recvq; }
    if e.sq.Take? || e.rq.Take? { HeadAsleep(c, t); QueuedWait(c); }
  }

  lemma HandWaits(c: Chan)
    requires Base(c)
    ensures var w := SendHand(HolderPc(c.sh, c.th)); w.Some? ==> w.value in c.th && SendWaits(c.th[w.value])
    ensures var w := RecvHand(HolderPc(c.sh, c.th)); w.Some? ==> w.value in c.th && RecvWaits(c.th[w.value])
  {
    hide Inv, ThreadsOk, OpenOk;
  }

  // ------------------------------------------- growing the two histories

  /** `more` extends the accepted values with fresh ones only. */
  ghost predicate FreshFor(more: seq<Item>, th: map<Tid, Thread>) {
    forall x :: x in more ==> x.producer in th && x.serial >= th[x.producer].serial
  }

  ghost predicate SerialsGrow(th: map<Tid, Thread>, th': map<Tid, Thread>) {
    th'.Keys == th.Keys && forall u <- th :: th[u].serial <= th'[u].serial && th[u].rid <= th'[u].rid
  }

  lemma SendHonestKept(acc: seq<Item>, more: seq<Item>, th: map<Tid, Thread>, th': map<Tid, Thread>, r: SendRec)
    requires SendHonest(acc, th, r) && FreshFor(more, th) && SerialsGrow(th, th')
    ensures SendHonest(acc + more, th', r)
  {
    forall j | 0 <= j < |r.items| ensures r.items[j] in acc + more <==> j < r.sent {
      assert r.items[j] in r.items;
    }
  }

  lemma RecvHonestKept(left: seq<Leave>, items: seq<Item>, to: Tid, th: map<Tid, Thread>, th': map<Tid, Thread>,
                       r: RecvRec)
    requires RecvHonest(left, th, r) && to in th && SerialsGrow(th, th')
    ensures RecvHonest(left + Leaves(items, to, th[to].rid), th', r)
  {
    ToAppend(left, items, to, th[to].rid, r.to, r.rid);
  }

  lemma LeftItems(left: seq<Leave>, items: seq<Item>, to: Tid, rid: nat)
    ensures ItemsOf(left + Leaves(items, to, rid)) == ItemsOf(left) + items
  {
  }

  lemma IdleMovesNothing(l: Thread, op: Op<Item>, t: Tid)
    requires RequestOk(l, t) && l.items == []
    ensures Moved(l, op) == 0
  {
  }

  // --------------------------------------------- program steps keep Ledger

  /** The values accepted, and leaving, by a program step. */
  function Handed(e: Eff): seq<Item> { if e.direct then e.got else [] }

  /** A value handed over directly is the one value of the first queued sender. */
  lemma HandedIsFirst(c: Chan, t: Tid, e: Eff)
    requires Base(c) && t in c.th && t in c.ring.ops && Post(t, c.th[t], c.ring.ops[t], ViewOf(c, t), e) && e.direct
    ensures c.sh.sendq != [] && c.sh.sendq[0] in c.th && c.sh.sendq[0] != t
    ensures SendServed(c, t, e) == Some(c.sh.sendq[0])
    ensures |e.got| == 1 && e.got == c.th[c.sh.sendq[0]].items && FreshFor(e.got, c.th)
  {
    hide Inv, QueueOk, OpFits, Apply, OpenOk, LockOk, PlaceOk, WaitMove, OthersKept, Shape;
    ServedAsleep(c, t, e);
    QueuedWait(c);
    var s := c.sh.sendq[0];
    assert s in c.sh.sendq && RequestOk(c.th[s], s);
  }

  lemma RequestsGrow(c: Chan, t: Tid, e: Eff)
    requires Base(c) && t in c.th && t in c.ring.ops && Post(t, c.th[t], c.ring.ops[t], ViewOf(c, t), e)
    ensures SerialsGrow(c.th, Apply(c, t, e).th)
  {
    hide Base, ThreadsOk, QApply, Wake, Record, LockAfter, SetOp, Shape, WaiterLedger, Lawful, Moved, Kept;
    ServedAsleep(c, t, e);
  }

  lemma ControlLogs(c: Chan, t: Tid, e: Eff)
    requires Base(c) && t in c.th && t in c.ring.ops && Post(t, c.th[t], c.ring.ops[t], ViewOf(c, t), e)
    ensures var c' := Apply(c, t, e);
      && c'.log.acc == c.log.acc + Handed(e) && c'.log.left == c.log.left + Leaves(Handed(e), t, c.th[t].rid)
      && SerialsGrow(c.th, c'.th) && FreshFor(Handed(e), c.th)
      && (e.direct ==>
            && |e.got| == 1 && c.sh.sendq != [] && c.sh.sendq[0] in c.th && c.sh.sendq[0] != t
            && e.got == c.th[c.sh.sendq[0]].items && SendServed(c, t, e) == Some(c.sh.sendq[0]))
  {
    hide Base, Post, SerialsGrow, QApply, Wake, LockAfter, SetOp, ViewOf;
    RequestsGrow(c, t, e);
    if e.direct {
      HandedIsFirst(c, t, e);
    } else {
      assert Leaves([], t, c.th[t].rid) == [];
    }
  }

  /** Accepting a value of another producer says nothing about these. */
  lemma AcceptedApart(acc: seq<Item>, more: seq<Item>, items: seq<Item>, k: nat, u: Tid, serial: nat)
    requires Accepted(acc, items, k) && Numbered(items, serial, u)
    requires forall x :: x in more ==> x.producer != u
    ensures Accepted(acc + more, items, k)
  {
    forall j | 0 <= j < |items| ensures items[j] in acc + more <==> j < k {
      assert items[j].producer == u;
    }
  }

  /** Nothing of a request that is only beginning has been accepted. */
  lemma NewRequestUnaccepted(acc: seq<Item>, items: seq<Item>, u: Tid, serial: nat)
    requires Numbered(items, serial, u) && (forall x :: x in acc && x.producer == u ==> x.serial < serial)
    ensures Accepted(acc, items, 0)
  {
  }

  lemma BeginUnaccepted(c: Chan, t: Tid, e: Eff)
    requires Base(c) && t in c.th && t in c.ring.ops && Post(t, c.th[t], c.ring.ops[t], ViewOf(c, t), e)
    requires AccOk(c) && e.l.items != c.th[t].items && !e.note.Sent?
    ensures MovedBy(c, t) == 0 && Handed(e) == [] && Accepted(c.log.acc, e.l.items, 0)
  {
    hide Inv, QueueOk, OpFits, OpenOk, LockOk, WaitMove, Accepted, QueueMove, Lawful;
    assert RequestOk(c.th[t], t) && RequestOk(e.l, t);
    IdleMovesNothing(c.th[t], c.ring.ops[t], t);
    HandWaits(c);
    NewRequestUnaccepted(c.log.acc, e.l.items, t, e.l.serial);
  }

  /** A value handed over directly had not been accepted before. */
  lemma DirectUnaccepted(c: Chan, t: Tid, e: Eff)
    requires Base(c) && t in c.th && t in c.ring.ops && Post(t, c.th[t], c.ring.ops[t], ViewOf(c, t), e)
    requires AccOk(c) && e.direct
    ensures c.sh.sendq != [] && c.sh.sendq[0] in c.th && MovedBy(c, c.sh.sendq[0]) == 0
    ensures |e.got| == 1 && e.got[0] !in c.log.acc
  {
    hide Inv, OpFits, OpenOk, WaitMove, RequestOk, Shape, OwnLedger, Moved;
    ControlLogs(c, t, e);
    ServedAsleep(c, t, e);
    var s := c.sh.sendq[0];
    assert Accepted(c.log.acc, c.th[s].items, MovedBy(c, s));
    SleeperMoved(c, s);
  }

  lemma SleeperMoved(c: Chan, s: Tid)
    requires Base(c) && s in c.sh.sendq && s in c.th && Asleep(c.th[s])
    ensures s in c.ring.ops && MovedBy(c, s) == 0
  {
    hide Inv, OpFits, OpenOk, RequestOk;
    QueuedWait(c);
  }

  lemma AcceptedKept(c: Chan, t: Tid, e: Eff, u: Tid)
    requires Base(c) && t in c.th && t in c.ring.ops && Post(t, c.th[t], c.ring.ops[t], ViewOf(c, t), e)
    requires AccOk(c) && u in c.th
    ensures var c' := Apply(c, t, e);
      u in c'.th && u in c'.ring.ops && Accepted(c'.log.acc, c'.th[u].items, MovedBy(c', u))
  {
    hide Inv, QueueOk, OpFits, QApply, Wake, OpenOk, LockOk, PlaceOk, WaitMove, LockAfter, Record, MovedBy, Lawful,
         Shape, WaiterLedger;
    var c' := Apply(c, t, e);
    ServedAsleep(c, t, e);
    ControlLogs(c, t, e);
    assert RequestOk(c.th[u], u) && Accepted(c.log.acc, c.th[u].items, MovedBy(c, u));
    if u == t {
      MovedOwn(c, t, e);
      if c'.th[t].items == c.th[t].items {
        AcceptedApart(c.log.acc, Handed(e), c.th[t].items, MovedBy(c, t), t, c.th[t].serial);
      } else if !e.note.Sent? {
        BeginUnaccepted(c, t, e);
      }
    } else if SendServed(c, t, e) == Some(u) || RecvServed(c, t, e) == Some(u) {
      MovedServed(c, t, e, u);
      ServedResult(c, t, e, u);
      if !(e.direct && SendServed(c, t, e) == Some(u)) {
        AcceptedApart(c.log.acc, Handed(e), c.th[u].items, MovedBy(c, u), u, c.th[u].serial);
      } else {
        DirectUnaccepted(c, t, e);
      }
    } else {
      OthersSame(c, t, e, u);
      AcceptedApart(c.log.acc, Handed(e), c.th[u].items, MovedBy(c, u), u, c.th[u].serial);
    }
  }

  lemma ControlKeepsAcc(c: Chan, t: Tid, e: Eff)
    requires Base(c) && t in c.th && t in c.ring.ops && Post(t, c.th[t], c.ring.ops[t], ViewOf(c, t), e)
    requires AccOk(c)
    ensures var c' := Apply(c, t, e); c'.ring.ops.Keys == c'.th.Keys && AccOk(c')
  {
    hide Base, Apply, MovedBy, Post, Accepted, FreshFor;
    var c' := Apply(c, t, e);
    BaseKeys(c);
    ApplyKeys(c, t, e);
    ControlLogs(c, t, e);
    forall u <- c'.th ensures Accepted(c'.log.acc, c'.th[u].items, MovedBy(c', u)) { AcceptedKept(c, t, e, u); }
    if e.direct { DirectUnaccepted(c, t, e); }
    forall x | x in c'.log.acc
      ensures x.producer in c'.th && x.serial < c'.th[x.producer].serial + MovedBy(c', x.producer)
    {
      if x in c.log.acc { BoundsGrow(c, t, e, x.producer); } else { DirectBound(c, t, e); }
    }
  }

  lemma BoundsGrow(c: Chan, t: Tid, e: Eff, u: Tid)
    requires Base(c) && t in c.th && t in c.ring.ops && Post(t, c.th[t], c.ring.ops[t], ViewOf(c, t), e)
    requires u in c.th && u in c.ring.ops
    ensures var c' := Apply(c, t, e);
      u in c'.th && u in c'.ring.ops && c.th[u].serial + MovedBy(c, u) <= c'.th[u].serial + MovedBy(c', u)
  {
    hide Base, RequestOk, QApply, Wake, Record, Lawful, WaiterLedger, LockAfter, OpFits, MovedBy;
    ServedAsleep(c, t, e);
    if u == t {
      MovedOwn(c, t, e);
    } else if SendServed(c, t, e) == Some(u) || RecvServed(c, t, e) == Some(u) {
      MovedServed(c, t, e, u);
    } else {
      OthersSame(c, t, e, u);
    }
  }

  lemma DirectBound(c: Chan, t: Tid, e: Eff)
    requires Base(c) && t in c.th && t in c.ring.ops && Post(t, c.th[t], c.ring.ops[t], ViewOf(c, t), e)
    requires e.direct && AccOk(c)
    ensures var c' := Apply(c, t, e);
      forall x :: x in e.got ==>
        && x.producer in c'.th && x.producer in c'.ring.ops
        && x.serial < c'.th[x.producer].serial + MovedBy(c', x.producer)
  {
    hide Inv, QueueOk, OpFits, QApply, Wake, OpenOk, LockOk, Record, Lawful, WaiterLedger, LockAfter, OwnLedger,
         PlaceOk, MovedBy;
    ControlLogs(c, t, e);
    ServedAsleep(c, t, e);
    var s := c.sh.sendq[0];
    assert RequestOk(c.th[s], s);
    MovedServed(c, t, e, s);
    DirectUnaccepted(c, t, e);
  }

  lemma LeftOwn(c: Chan, t: Tid, e: Eff)
    requires Base(c) && t in c.th && t in c.ring.ops && Post(t, c.th[t], c.ring.ops[t], ViewOf(c, t), e)
    requires LeftOk(c)
    ensures var c' := Apply(c, t, e);
      t in c'.th && t in c'.ring.ops && To(c'.log.left, t, c'.th[t].rid) == KeptBy(c', t)
    ensures e.note.Received? ==> e.note.got == To(Apply(c, t, e).log.left, t, c.th[t].rid)
  {
    hide Inv, Base, Apply, KeptBy, Lawful, To, Shape, FreshFor, SerialsGrow;
    var c', rid := Apply(c, t, e), c.th[t].rid;
    ControlLogs(c, t, e);
    assert To(c.log.left, t, rid) == KeptBy(c, t);
    ToAppend(c.log.left, Handed(e), t, rid, t, rid);
    KeptOwn(c, t, e);
    if e.note.Received? { ToNone(c'.log.left, t, rid + 1); }
  }

  lemma LeftElsewhere(c: Chan, t: Tid, e: Eff, u: Tid)
    requires Base(c) && t in c.th && t in c.ring.ops && Post(t, c.th[t], c.ring.ops[t], ViewOf(c, t), e)
    requires LeftOk(c) && u in c.th && u != t
    ensures var c' := Apply(c, t, e);
      u in c'.th && u in c'.ring.ops && To(c'.log.left, u, c'.th[u].rid) == KeptBy(c', u)
  {
    hide Inv, Base, Apply, KeptBy, Post, To, FreshFor, SerialsGrow;
    BaseKeys(c);
    ControlLogs(c, t, e);
    assert To(c.log.left, u, c.th[u].rid) == KeptBy(c, u);
    ToAppend(c.log.left, Handed(e), t, c.th[t].rid, u, c.th[u].rid);
    KeptElsewhere(c, t, e, u);
  }

  lemma ControlKeepsLeft(c: Chan, t: Tid, e: Eff)
    requires Base(c) && t in c.th && t in c.ring.ops && Post(t, c.th[t], c.ring.ops[t], ViewOf(c, t), e)
    requires LeftOk(c)
    ensures var c' := Apply(c, t, e); c'.ring.ops.Keys == c'.th.Keys && LeftOk(c')
    ensures e.note.Received? ==> e.note.got == To(Apply(c, t, e).log.left, t, c.th[t].rid)
  {
    hide Base, Apply, KeptBy, Post, To, FreshFor;
    var c' := Apply(c, t, e);
    BaseKeys(c);
    ApplyKeys(c, t, e);
    ControlLogs(c, t, e);
    LeftOwn(c, t, e);
    forall u <- c.th | u != t ensures u in c'.ring.ops && To(c'.log.left, u, c'.th[u].rid) == KeptBy(c', u) {
      LeftElsewhere(c, t, e, u);
    }
  }

  lemma BaseKeys(c: Chan)
    requires Base(c)
    ensures c.ring.ops.Keys == c.th.Keys
  {
  }

  lemma ApplyKeys(c: Chan, t: Tid, e: Eff)
    requires t in c.th && t in c.ring.ops && c.ring.ops.Keys == c.th.Keys
    ensures var c' := Apply(c, t, e);
      c'.ring.ops.Keys == c'.th.Keys == c.th.Keys && c'.th[t] == e.l && c'.ring.m == c.ring.m
  {
  }

  lemma KeptElsewhere(c: Chan, t: Tid, e: Eff, u: Tid)
    requires Base(c) && t in c.th && t in c.ring.ops && Post(t, c.th[t], c.ring.ops[t], ViewOf(c, t), e)
    requires u in c.th && u in c.ring.ops && u != t
    ensures var c' := Apply(c, t, e);
      u in c'.th && u in c'.ring.ops && c'.th[u].rid == c.th[u].rid && KeptBy(c', u) == KeptBy(c, u)
  {
    hide Inv, QueueOk, OpFits, QApply, Wake, OpenOk, LockOk, RequestOk, Record, MovedBy, Lawful, WaiterLedger,
         OwnLedger, LockAfter, Shape;
    ServedAsleep(c, t, e);
    if RecvServed(c, t, e) == Some(u) {
      MovedServed(c, t, e, u);
    } else if SendServed(c, t, e) == Some(u) {
      KeptSender(c, t, e, u);
    } else {
      OthersSame(c, t, e, u);
    }
  }

  lemma KeptSender(c: Chan, t: Tid, e: Eff, u: Tid)
    requires Base(c) && t in c.th && t in c.ring.ops && Post(t, c.th[t], c.ring.ops[t], ViewOf(c, t), e)
    requires u in c.th && u in c.ring.ops && SendServed(c, t, e) == Some(u)
    ensures var c' := Apply(c, t, e); u in c'.th && u in c'.ring.ops && KeptBy(c', u) == KeptBy(c, u) == []
  {
    hide Inv, QueueOk, OpFits, QApply, Wake, OpenOk, LockOk, RequestOk, Record, OwnLedger, WaiterLedger, LockAfter,
         HolderPc, HolderOp;
    ServedAsleep(c, t, e);
    HandsMove(c, t, e);
    HandWaits(c);
    ServedResult(c, t, e, u);
    TakenAsleep(c, t, e);
  }

  lemma ControlKeepsLedger(c: Chan, c': Chan, t: Tid, e: Eff)
    requires Base(c) && Control(c, c', t, e) && Ledger(c)
    ensures Ledger(c')
  {
    hide Base, Prog, Post, AccOk, LeftOk, SendHonest, RecvHonest, Wake, QApply, LockAfter, Leaves, ItemsOf, FreshFor,
         SerialsGrow, ViewOf, Record;
    ControlPost(c, c', t, e);
    ControlKeepsAcc(c, t, e);
    ControlKeepsLeft(c, t, e);
    ControlLogs(c, t, e);
    LeftItems(c.log.left, Handed(e), t, c.th[t].rid);
    ControlRecords(c, t, e);
    assert multiset(c.log.acc + Handed(e)) == multiset(c.log.acc) + multiset(Handed(e));
    assert multiset(ItemsOf(c.log.left) + Handed(e)) == multiset(ItemsOf(c.log.left)) + multiset(Handed(e));
  }

  lemma ControlRecords(c: Chan, t: Tid, e: Eff)
    requires Base(c) && t in c.th && t in c.ring.ops && Post(t, c.th[t], c.ring.ops[t], ViewOf(c, t), e) && Ledger(c)
    ensures var c' := Apply(c, t, e);
      && (forall r :: r in c'.log.sends ==> SendHonest(c'.log.acc, c'.th, r))
      && (forall r :: r in c'.log.recvs ==> RecvHonest(c'.log.left, c'.th, r))
  {
    hide Inv, QueueOk, OpFits, QApply, Wake, OpenOk, LockOk, Lawful, LockAfter, PlaceOk, MovedBy, SendHonest,
         RecvHonest, To, ThreadsOk;
    var c' := Apply(c, t, e);
    ControlLogs(c, t, e);
    ControlKeepsLeft(c, t, e);
    forall r | r in c.log.sends ensures SendHonest(c'.log.acc, c'.th, r) {
      SendHonestKept(c.log.acc, Handed(e), c.th, c'.th, r);
    }
    forall r | r in c.log.recvs ensures RecvHonest(c'.log.left, c'.th, r) {
      RecvHonestKept(c.log.left, Handed(e), t, c.th, c'.th, r);
    }
    if e.note.Sent? { NewSendHonest(c, t, e); }
    if e.note.Received? { NewRecvHonest(c, t, e); }
  }

  lemma NewSendHonest(c: Chan, t: Tid, e: Eff)
    requires Base(c) && t in c.th && t in c.ring.ops && Post(t, c.th[t], c.ring.ops[t], ViewOf(c, t), e) && AccOk(c)
    requires e.note.Sent?
    ensures var c', l := Apply(c, t, e), c.th[t];
      SendHonest(c'.log.acc, c'.th, SendRec(l.items, l.late, e.note.k, e.note.res))
  {
    hide Inv, QueueOk, OpFits, QApply, Wake, OpenOk, LockOk, Lawful, LockAfter, PlaceOk, MovedBy, To, Record;
    ControlLogs(c, t, e);
    MovedOwn(c, t, e);
    assert RequestOk(c.th[t], t) && Accepted(c.log.acc, c.th[t].items, MovedBy(c, t));
  }

  lemma NewRecvHonest(c: Chan, t: Tid, e: Eff)
    requires Base(c) && t in c.th && t in c.ring.ops && Post(t, c.th[t], c.ring.ops[t], ViewOf(c, t), e) && LeftOk(c)
    requires e.note.Received?
    ensures var c', l := Apply(c, t, e), c.th[t];
      RecvHonest(c'.log.left, c'.th, RecvRec(t, l.rid, e.note.got, e.note.res))
  {
    hide Inv, QueueOk, OpFits, QApply, OpenOk, LockOk, Lawful, LockAfter, PlaceOk, To, Record;
    ControlKeepsLeft(c, t, e);
  }

  // ------------------------------------------------ ring steps keep Ledger

  /** What a step of t's ring operation accepts, and what it takes out. */
  ghost function StepSent(c: Chan, c': Chan, t: Tid): seq<Item> requires t in c.ring.ops && t in c'.ring.ops {
    if EffectOf(c.ring.ops[t], c'.ring.ops[t]).ResP? then OpSent(c'.ring.ops[t]) else []
  }
  ghost function StepGot(c: Chan, c': Chan, t: Tid): seq<Item> requires t in c.ring.ops && t in c'.ring.ops {
    if EffectOf(c.ring.ops[t], c'.ring.ops[t]).ResC? then OpGot(c'.ring.ops[t], c'.ring.m.hist) else []
  }

  lemma RingStepLogs(c: Chan, c': Chan, t: Tid)
    requires Base(c) && RingStep(c, c', t)
    ensures t in c.th && t in c.ring.ops && t in c'.ring.ops
    ensures var m, m' := c.ring.m, c'.ring.m;
      && Cursors(m) && Cursors(m') && m'.hist == m.hist + StepSent(c, c', t) && m'.ch == m.ch + |StepGot(c, c', t)|
      && m.hist[m.ch..] == StepGot(c, c', t) + m.hist[m'.ch..] && (StepSent(c, c', t) != [] ==> m'.pt == m.pt)
    ensures c'.log.acc == c.log.acc + StepSent(c, c', t)
    ensures var to := ServedBy(c.th[t].pc, t);
      to in c.th && c'.log.left == c.log.left + Leaves(StepGot(c, c', t), to, c.th[to].rid)
    ensures c'.sh == c.sh && c'.th == c.th && c'.log.sends == c.log.sends && c'.log.recvs == c.log.recvs
  {
    hide OpStep, Covered, AllStored, ThreadsOk, QueueOk, LockOk, OpenOk;
    StepKeepsInv(c.ring, c'.ring, t);
    StepEffect(c.ring.m, c.ring.ops[t], c'.ring.m, c'.ring.ops[t], t);
  }

  /** Within one ring operation only reservations change the accounts. */
  lemma OpAccounts(m: Mem<Item>, op: Op<Item>, m': Mem<Item>, op': Op<Item>, t: Tid)
    requires Cursors(m) && OpOk(m, t, op) && OpStep(m, op, m', op', t)
    ensures if EffectOf(op, op').ResP? then OpSent(op) == [] else OpSent(op') == OpSent(op)
    ensures if EffectOf(op, op').ResC? then OpGot(op, m.hist) == [] else OpGot(op', m'.hist) == OpGot(op, m.hist)
  {
    hide AllStored, Owns, Room;
  }

  lemma OpGotGrows(m: Mem<Item>, op: Op<Item>, more: seq<Item>, u: Tid)
    requires Cursors(m) && OpOk(m, u, op)
    ensures OpGot(op, m.hist + more) == OpGot(op, m.hist)
  {
    hide AllStored, Owns, Room;
  }

  lemma RingStepMoved(c: Chan, c': Chan, t: Tid, u: Tid)
    requires Base(c) && RingStep(c, c', t) && u in c.th && u in c.ring.ops
    ensures u in c'.th && u in c'.ring.ops && t in c.ring.ops && t in c'.ring.ops
    ensures MovedBy(c', u) == MovedBy(c, u) + if u == Author(c.th[t].pc, t) then |StepSent(c, c', t)| else 0
  {
    hide OpStep, OpOk, Inv, QueueOk, LockOk, OpenOk, RequestOk, EffectOf, OpSent, OpGot, Leaves, PushFits, PopFits,
         Cursors;
    RingStepLogs(c, c', t);
    InvOp(c.ring, t);
    assert OpFits(c.ring.ops[t], c.th[t], AuthorItems(c.th, t));
    RingStepFits(c.ring.m, c.ring.ops[t], c'.ring.m, c'.ring.ops[t], t, c.th[t], AuthorItems(c.th, t));
    OpAccounts(c.ring.m, c.ring.ops[t], c'.ring.m, c'.ring.ops[t], t);
    HandAsleep(c, t);
    HandWaits(c);
  }

  lemma RingStepKept(c: Chan, c': Chan, t: Tid, u: Tid)
    requires Base(c) && RingStep(c, c', t) && u in c.th && u in c.ring.ops
    ensures u in c'.th && u in c'.ring.ops && t in c.ring.ops && t in c'.ring.ops
    ensures KeptBy(c', u) == KeptBy(c, u) + if u == ServedBy(c.th[t].pc, t) then StepGot(c, c', t) else []
  {
    hide OpStep, OpOk, Inv, QueueOk, LockOk, OpenOk, RequestOk, EffectOf, OpSent, OpGot, Leaves, PushFits, PopFits,
         Cursors;
    RingStepLogs(c, c', t);
    InvOp(c.ring, t);
    InvOp(c.ring, u);
    assert OpFits(c.ring.ops[t], c.th[t], AuthorItems(c.th, t));
    RingStepFits(c.ring.m, c.ring.ops[t], c'.ring.m, c'.ring.ops[t], t, c.th[t], AuthorItems(c.th, t));
    OpAccounts(c.ring.m, c.ring.ops[t], c'.ring.m, c'.ring.ops[t], t);
    OpGotGrows(c.ring.m, c.ring.ops[u], StepSent(c, c', t), u);
    HandAsleep(c, t);
    HandWaits(c);
    if c.sh.lock.Some? && c.sh.lock.value in c.ring.ops {
      InvOp(c.ring, c.sh.lock.value);
      OpGotGrows(c.ring.m, HolderOp(c), StepSent(c, c', t), c.sh.lock.value);
    }
  }

  /** The values a ring push reserves are the next of its author's request, not
      accepted before. */
  lemma StepSentIsNew(c: Chan, c': Chan, t: Tid)
    requires Base(c) && RingStep(c, c', t) && t in c.ring.ops && t in c'.ring.ops
    requires StepSent(c, c', t) != []
    ensures var a := Author(c.th[t].pc, t);
      && a in c.th && a in c.ring.ops && RequestOk(c.th[a], a)
      && MovedBy(c, a) == 0 && StepSent(c, c', t) <= c.th[a].items
  {
    hide OpStep, OpOk, Inv, QueueOk, LockOk, OpenOk, Leaves, PopFits, Cursors, PlaceOk, Numbered;
    RingStepLogs(c, c', t);
    InvOp(c.ring, t);
    assert OpFits(c.ring.ops[t], c.th[t], AuthorItems(c.th, t));
    RingStepFits(c.ring.m, c.ring.ops[t], c'.ring.m, c'.ring.ops[t], t, c.th[t], AuthorItems(c.th, t));
    OpAccounts(c.ring.m, c.ring.ops[t], c'.ring.m, c'.ring.ops[t], t);
    HandAsleep(c, t);
    HandWaits(c);
  }

  lemma RingStepKeepsAcc(c: Chan, c': Chan, t: Tid)
    requires Base(c) && RingStep(c, c', t) && AccOk(c)
    ensures c'.ring.ops.Keys == c'.th.Keys && AccOk(c')
    ensures t in c.ring.ops && t in c'.ring.ops && FreshFor(StepSent(c, c', t), c.th)
  {
    hide Inv, QueueOk, LockOk, OpenOk, OpFits, RingStep, MovedBy, Leaves, Cursors, StepSent, PlaceOk;
    RingStepLogs(c, c', t);
    RingStepKeepsBase(c, c', t);
    var more, a := StepSent(c, c', t), Author(c.th[t].pc, t);
    if more != [] { StepSentIsNew(c, c', t); }
    RingStepAccepts(c, c', t);
    forall x | x in c'.log.acc
      ensures x.producer in c'.th && x.serial < c'.th[x.producer].serial + MovedBy(c', x.producer)
    {
      if x in c.log.acc { RingStepMoved(c, c', t, x.producer); } else { RingStepMoved(c, c', t, a); }
    }
    forall i, j | 0 <= i < j < |c'.log.acc| ensures c'.log.acc[i] != c'.log.acc[j] {
      if j >= |c.log.acc| {
        assert c'.log.acc[j] == c.th[a].items[j - |c.log.acc|];
      }
    }
  }

  lemma RingStepAccepts(c: Chan, c': Chan, t: Tid)
    requires Base(c) && RingStep(c, c', t) && AccOk(c)
    ensures c'.ring.ops.Keys == c'.th.Keys
    ensures forall u <- c'.th :: Accepted(c'.log.acc, c'.th[u].items, MovedBy(c', u))
  {
    hide Inv, QueueOk, LockOk, OpenOk, OpFits, RingStep, MovedBy, Leaves, Cursors, StepSent, PlaceOk;
    RingStepLogs(c, c', t);
    RingStepKeepsBase(c, c', t);
    var more, a := StepSent(c, c', t), Author(c.th[t].pc, t);
    if more != [] { StepSentIsNew(c, c', t); }
    forall u <- c'.th ensures Accepted(c'.log.acc, c'.th[u].items, MovedBy(c', u)) {
      RingStepMoved(c, c', t, u);
      assert RequestOk(c.th[u], u) && Accepted(c.log.acc, c.th[u].items, MovedBy(c, u));
      if u != a || more == [] { AcceptedApart(c.log.acc, more, c.th[u].items, MovedBy(c, u), u, c.th[u].serial); }
      else { AcceptedPrefix(c.log.acc, more, c.th[a].items); }
    }
  }

  lemma AcceptedPrefix(acc: seq<Item>, more: seq<Item>, items: seq<Item>)
    requires Accepted(acc, items, 0) && more <= items && (forall i, j :: 0 <= i < j < |items| ==> items[i] != items[j])
    ensures Accepted(acc + more, items, |more|)
  {
    forall j | 0 <= j < |items| ensures items[j] in acc + more <==> j < |more| {
      if j < |more| { assert more[j] in more; }
    }
  }

  lemma RingStepKeepsLeft(c: Chan, c': Chan, t: Tid)
    requires Base(c) && RingStep(c, c', t) && LeftOk(c)
    ensures c'.ring.ops.Keys == c'.th.Keys && LeftOk(c')
  {
    hide Inv, QueueOk, LockOk, OpenOk, OpFits, RingStep, KeptBy, Cursors, StepGot, RequestOk, To;
    RingStepLogs(c, c', t);
    RingStepKeepsBase(c, c', t);
    var to := ServedBy(c.th[t].pc, t);
    forall u <- c'.th ensures To(c'.log.left, u, c'.th[u].rid) == KeptBy(c', u) {
      RingStepKept(c, c', t, u);
      ToAppend(c.log.left, StepGot(c, c', t), to, c.th[to].rid, u, c.th[u].rid);
    }
  }

  lemma RingStepKeepsLedger(c: Chan, c': Chan, t: Tid)
    requires Base(c) && RingStep(c, c', t) && Ledger(c)
    ensures Ledger(c')
  {
    hide Base, RingStep, AccOk, LeftOk, SendHonest, RecvHonest, Leaves, ItemsOf, FreshFor, StepSent, StepGot;
    RingStepLogs(c, c', t);
    RingStepKeepsAcc(c, c', t);
    RingStepKeepsLeft(c, c', t);
    var m, m', sent, got, to := c.ring.m, c'.ring.m, StepSent(c, c', t), StepGot(c, c', t), ServedBy(c.th[t].pc, t);
    LeftItems(c.log.left, got, to, c.th[to].rid);
    forall r | r in c'.log.sends ensures SendHonest(c'.log.acc, c'.th, r) {
      SendHonestKept(c.log.acc, sent, c.th, c.th, r);
    }
    forall r | r in c'.log.recvs ensures RecvHonest(c'.log.left, c'.th, r) {
      RecvHonestKept(c.log.left, got, to, c.th, c.th, r);
    }
    assert m'.hist[m'.ch..] == m.hist[m'.ch..] + sent;
    assert multiset(got + m.hist[m'.ch..]) == multiset(got) + multiset(m.hist[m'.ch..]);
    assert multiset(m.hist[m'.ch..] + sent) == multiset(m.hist[m'.ch..]) + multiset(sent);
    assert multiset(c.log.acc + sent) == multiset(c.log.acc) + multiset(sent);
    assert multiset(ItemsOf(c.log.left) + got) == multiset(ItemsOf(c.log.left)) + multiset(got);
  }

  // ------------------------------------------------------------ executions

  lemma InitLedger(c: Chan)
    requires Init(c)
    ensures Ledger(c)
  {
  }

  lemma {:induction false} RunLedger(run: seq<Chan>, i: nat)
    requires Channel.Run(run) && i < |run|
    ensures Ledger(run[i])
  {
    hide Init, Base, Ledger, RingStep, Control;
    if i == 0 {
      InitLedger(run[0]);
    } else {
      RunLedger(run, i - 1);
      RunBase(run, i - 1);
      assert Channel.Next(run[i - 1], run[i]);
      var t: Tid :| StepBy(run[i - 1], run[i], t);
      if RingStep(run[i - 1], run[i], t) {
        RingStepKeepsLedger(run[i - 1], run[i], t);
      } else {
        var e :| Control(run[i - 1], run[i], t, e);
        ControlKeepsLedger(run[i - 1], run[i], t, e);
      }
    }
  }
}
